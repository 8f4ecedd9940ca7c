/** The converse of PassReentry: whenever a position is looked up late, there is a pass with that clock that
    enters again what was open when it began. */
module LateLookup {
  import opened Common
  import opened Config
  import opened Strategy
  import opened Ledger
  import opened Execution
  import opened Evolution
  import opened Runs
  import opened Ranking
  import opened RankedPass
  import opened PassReentry
  import opened Witnesses
  import Precision

  // ---------- The start: one unit of everything ----------

  function SymbolsOf(keys: seq<Key>): seq<string> {
    seq(|keys|, k requires 0 <= k < |keys| => keys[k].symbol)
  }

  function RoomFor(keys: seq<Key>, cooldownMinutes: int): Settings {
    Roomy(|keys|, cooldownMinutes, SymbolsOf(keys))
  }

  function Purchases(keys: seq<Key>, at: int): seq<Action> {
    if keys == [] then [] else Purchases(keys[..|keys| - 1], at) + [Buys(keys[|keys| - 1], at)]
  }

  function Bought(key: Key, at: int): PositionRow {
    EnteredPosition(Fill(key, 1.0, at))
  }

  lemma BoughtRow(key: Key, at: int)
    ensures var p := Bought(key, at);
            p.key == key && p.status == Open && p.quantity == p.leverage == 1.0 && p.side == Long
  {
  }

  ghost predicate OrderedUpTo(orders: seq<OrderRow>, limit: int) {
    forall o :: o in orders ==> o.createdAt <= limit
  }

  /** There is one position for each key, in order, and nothing was ordered later. */
  ghost predicate AreBought(t: Tables, keys: seq<Key>, at: int) {
    && |t.positions| == |keys|
    && (forall k :: 0 <= k < |keys| ==> t.positions[k] == Bought(keys[k], at))
    && OrderedUpTo(t.orders, at)
  }

  lemma {:induction false} AllAreOpen(positions: seq<PositionRow>)
    requires forall k :: 0 <= k < |positions| ==> positions[k].status == Open
    ensures CountOpen(positions) == |positions| == |OpenIds(positions)|
    ensures forall k :: 0 <= k < |positions| ==> OpenIds(positions)[k] == k
  {
    if positions != [] {
      AllAreOpen(positions[..|positions| - 1]);
    }
  }

  /** The keys that a pass manages then are the keys that were bought. */
  lemma BoughtKeysAreManaged(t: Tables, keys: seq<Key>, at: int)
    requires AreBought(t, keys, at)
    ensures CountOpen(t.positions) == |keys| && ManagedKeys(t.positions) == keys
    ensures forall k :: 0 <= k < |keys| ==> keys[k] in OpenKeys(t.positions)
  {
    forall k | 0 <= k < |keys|
      ensures t.positions[k].status == Open && t.positions[k].key == keys[k] && t.positions[k] in t.positions
    {
      BoughtRow(keys[k], at);
    }
    AllAreOpen(t.positions);
    hide Bought, OpenIds;
  }

  lemma NotYetBought(t: Tables, keys: seq<Key>, key: Key, at: int)
    requires AreBought(t, keys, at) && key !in keys
    ensures FindOpen(t.positions, key).None?
  {
    hide FindOpen;
    if FindOpen(t.positions, key).Some? {
      BoughtRow(keys[FindOpen(t.positions, key).value], at);
      assert false;
    }
  }

  lemma OneMoreIsBought(settings: Settings, w: World, keys: seq<Key>, key: Key, at: int)
    requires IsRoomy(settings) && |keys| < settings.maxConcurrentPositions && key.symbol in settings.symbolAllowlist
    requires Calm(settings, w.tables) && AreBought(w.tables, keys, at) && key !in keys
    ensures var t := Apply(settings, w, Buys(key, at)).tables;
            Calm(settings, t) && AreBought(t, keys + [key], at)
  {
    hide Calm, IsRoomy, BuysUnits, FindOpen, CountOpen, OpenIds, ManagedKeys, OpenKeys, SubmitEntry, EnteredPosition, Fill, Purchase, Apply;
    PurchaseBuysOne(settings, key);
    PurchaseIsApplied(settings, w, key, at);
    NotYetBought(w.tables, keys, key, at);
    BoughtKeysAreManaged(w.tables, keys, at);
    EntryGoesThrough(settings, w, Purchase(key), 1.0, at);
    EntryIsOrdered(settings, w, Purchase(key), at);
  }

  lemma PurchaseIsApplied(settings: Settings, w: World, key: Key, at: int)
    ensures Apply(settings, w, Buys(key, at)) == SubmitEntry(settings, w, Purchase(key), OPEN_MARKET, at).0
  {
    hide SubmitEntry;
  }

  lemma EntryIsOrdered(settings: Settings, w: World, a: EntryArgs, at: int)
    requires OrderedUpTo(w.tables.orders, at)
    ensures OrderedUpTo(SubmitEntry(settings, w, a, OPEN_MARKET, at).0.tables.orders, at)
  {
    hide SubmitEntry, EntryChange, Allowed, Changed, Remarked;
    EntryEvolves(settings, w, a, OPEN_MARKET, at);
  }

  lemma {:induction false} AllAreBought(settings: Settings, keys: seq<Key>, at: int)
    requires IsRoomy(settings) && |keys| <= settings.maxConcurrentPositions && Distinct(keys)
    requires forall k :: 0 <= k < |keys| ==> keys[k].symbol in settings.symbolAllowlist
    ensures var t := Run(settings, Purchases(keys, at)).tables;
            Calm(settings, t) && AreBought(t, keys, at)
  {
    hide Run, Apply, Buys, Calm, Bought, IsRoomy;
    if keys == [] {
      NothingYetIsCalm(settings);
    } else {
      var n := |keys| - 1;
      AllAreBought(settings, keys[..n], at);
      RunStep(settings, Purchases(keys[..n], at), Buys(keys[n], at));
      assert keys[n] !in keys[..n] && keys[..n] + [keys[n]] == keys;
      OneMoreIsBought(settings, Run(settings, Purchases(keys[..n], at)), keys[..n], keys[n], at);
    }
  }

  lemma {:induction false} PurchasesAreAtOnce(keys: seq<Key>, at: int)
    ensures |Purchases(keys, at)| == |keys|
    ensures forall a :: a in Purchases(keys, at) ==> a.SubmitOther? && a.at == at
  {
    if keys != [] {
      PurchasesAreAtOnce(keys[..|keys| - 1], at);
    }
  }

  lemma PurchasesAreSafe(settings: Settings, keys: seq<Key>, at: int)
    requires keys != []
    ensures Safe(settings, Run(settings, Purchases(keys, at)).tables.positions, at)
  {
    hide Run, Safe, Purchases;
    PurchasesAreAtOnce(keys, at);
    assert forall i :: 0 <= i < |keys| ==> Purchases(keys, at)[i] in Purchases(keys, at);
    EveryRunIsSafe(settings, Purchases(keys, at));
  }

  // ---------- An evaluation that exits ----------

  function ExitRow(timestamp: int): SignalRow {
    SignalRow(timestamp, 101.0, 99.0, 100.0, 0.0, false, true, None, None, 0.0, 0.0)
  }

  function EntryRow(timestamp: int): SignalRow {
    SignalRow(timestamp, 101.0, 99.0, 100.0, 0.0, true, false, None, None, 1.0, 1.0)
  }

  lemma TriggersExit(key: Key, start: int, timestamp: int)
    ensures TriggeredExit(Bought(key, start), ExitRow(timestamp)) == Some((100.0, ExitReason.StrategyExit))
  {
  }

  /** Position `h` was closed at `at`; the others are as they were. */
  ghost predicate ClosedAt(t: Tables, keys: seq<Key>, h: nat, at: int) {
    && h < |keys| == |t.positions|
    && (forall k :: 0 <= k < |keys| ==> t.positions[k].key == keys[k])
    && t.positions[h].status == Closed && t.positions[h].closedAt == Some(at)
    && t.positions[h].exitReason == Some(ExitReason.StrategyExit)
    && CountOpen(t.positions) == |keys| - 1
    && OrderedUpTo(t.orders, at)
  }

  lemma SaleCloses(settings: Settings, w: World, keys: seq<Key>, h: nat, start: int, at: int)
    requires IsRoomy(settings) && Calm(settings, w.tables) && AreBought(w.tables, keys, start)
    requires h < |keys| && start <= at
    ensures var (after, result) :=
              ClosePosition(settings, w, h, MarketClose(100.0, ExitReason.StrategyExit), OPEN_MARKET, at);
            result.Success? && Calm(settings, after.tables) && ClosedAt(after.tables, keys, h, at)
  {
    var t, reason := w.tables, ExitReason.StrategyExit;
    hide ClosePosition, RecordExit, Recalculate, Calm, CountOpen, ManagedKeys, OpenKeys, IsRoomy, Bought, Fill, MarketClose, Sold;
    BoughtKeysAreManaged(t, keys, start);
    forall k | 0 <= k < |keys|
      ensures t.positions[k].key == keys[k]
    {
      BoughtRow(keys[k], start);
    }
    BoughtRow(keys[h], start);
    CloseGoesThrough(settings, w, h, reason, at);
    var after := ClosePosition(settings, w, h, MarketClose(100.0, reason), OPEN_MARKET, at).0.tables;
    var ordered := t.(orders := after.orders);
    OtherOrdersAreCalm(settings, t, after.orders);
    CloseStaysCalm(settings, ordered, h, reason, |t.orders|, at);
    var sold := RecordExit(ordered, h, Sold(reason, at), |t.orders|);
    OtherRowsRemain(ordered, h, reason, |t.orders|, at);
    CalmMarks(settings, sold, keys[h].symbol);
    assert after.orders == t.orders + [after.orders[|t.orders|]];
  }

  lemma OtherOrdersAreCalm(settings: Settings, t: Tables, orders: seq<OrderRow>)
    requires Calm(settings, t)
    ensures Calm(settings, t.(orders := orders))
  {
    hide StandsStill, CountOpen, SumBy;
  }

  lemma OtherRowsRemain(t: Tables, h: nat, reason: ExitReason, orderId: nat, at: int)
    requires h < |t.positions|
    ensures var r := RecordExit(t, h, Sold(reason, at), orderId);
            && |r.positions| == |t.positions| && r.orders == t.orders
            && forall k :: 0 <= k < |t.positions| && k != h ==> r.positions[k] == t.positions[k]
  {
    hide ExitedPosition, ExitTrade, SumBy;
  }

  lemma Processed(orders: seq<OrderRow>, key: Key, limit: int)
    requires OrderedUpTo(orders, limit)
    ensures !BarAlreadyProcessed(orders, key, limit + 1)
  {
    hide LatestOrderAt;
  }

  lemma NewestRow(settings: Settings, call: Call, row: SignalRow)
    requires IsRoomy(settings) && call.frame == [row]
    ensures SelectedSignalRow(settings, call) == Some(row)
  {
    hide Timeframe.Length;
  }

  lemma FoundWhereBought(t: Tables, keys: seq<Key>, h: nat, at: int)
    requires AreBought(t, keys, at) && Distinct(keys) && h < |keys|
    ensures FindOpen(t.positions, keys[h]) == Some(h)
  {
    hide FindOpen, Bought;
    forall k | 0 <= k < |keys|
      ensures t.positions[k].key == keys[k] && t.positions[k].status == Open
    {
      BoughtRow(keys[k], at);
    }
  }

  lemma ExitEvaluation(settings: Settings, w: World, call: Call, keys: seq<Key>, h: nat, start: int, at: int)
    requires IsRoomy(settings) && Calm(settings, w.tables) && AreBought(w.tables, keys, start) && Distinct(keys)
    requires h < |keys| && KeyOf(call) == keys[h] && start <= at
    requires call.frame == [ExitRow(start + 1)] && call.env == OPEN_MARKET
    ensures var (after, outcome) := Evaluate(settings, w, call, at);
            && outcome == Exited(ExitReason.StrategyExit)
            && Calm(settings, after.tables) && ClosedAt(after.tables, keys, h, at)
  {
    hide Calm, IsRoomy, ClosePosition, Recalculate, FindOpen, BarAlreadyProcessed, SelectedSignalRow, TriggeredExit, Bought,
         CountOpen, ClosedAt;
    NewestRow(settings, call, ExitRow(start + 1));
    Processed(w.tables.orders, keys[h], start);
    FoundWhereBought(w.tables, keys, h, start);
    CalmMarks(settings, w.tables, call.symbol);
    var marked := w.(tables := Recalculate(w.tables, map[call.symbol := 100.0]));
    assert MarkAtLatest(w, call) == marked;
    TriggersExit(keys[h], start, start + 1);
    SaleCloses(settings, marked, keys, h, start, at);
  }

  // ---------- An evaluation that enters ----------

  lemma OneTenthOfTheBalance(settings: Settings)
    requires IsRoomy(settings)
    ensures PositionSize(StrategyParams(0.1, 0.1), Balance(settings), 100.0, 0.01, 0.2, 1.0)
            == settings.maxConcurrentPositions as real
  {
    var slots := settings.maxConcurrentPositions as real;
    var params := StrategyParams(0.1, 0.1);
    assert StopDistance(params, 100.0) == 10.0;
    assert QuantityFor(Balance(settings) * 0.01, 10.0) == slots;
    assert QuantityFor(Balance(settings) * 0.2 * 1.0, 100.0) == 2.0 * slots;
    WholeUnitsStay(settings.maxConcurrentPositions);
    hide StopDistance, QuantityFor, Precision.Round8, IsRoomy;
  }

  lemma WholeUnitsStay(n: int)
    ensures Precision.Round8(n as real) == n as real
  {
    var steps := n * 100000000;
    var scaled := n as real * 100000000.0;
    assert scaled == steps as real;
    assert scaled.Floor == steps;
    assert steps as real / 100000000.0 == n as real;
  }

  lemma StrategyBuysUnits(settings: Settings, call: Call, timestamp: int)
    requires IsRoomy(settings) && call.params == StrategyParams(0.1, 0.1) && call.model == None
    requires call.symbol in settings.symbolAllowlist
    ensures var a := StrategyEntry(settings, call, EntryRow(timestamp));
            BuysUnits(settings, a, settings.maxConcurrentPositions as real) && a.key == KeyOf(call)
  {
    OneTenthOfTheBalance(settings);
    var a := StrategyEntry(settings, call, EntryRow(timestamp));
    assert SelectedLeverage(settings, a) == 1.0;
    hide PositionSize, InstanceName;
  }

  lemma ClosedQueries(settings: Settings, t: Tables, call: Call, keys: seq<Key>, h: nat, closed: int)
    requires ClosedAt(t, keys, h, closed) && Distinct(keys) && KeyOf(call) == keys[h]
    requires call.timeframe == M15 && call.now >= closed + CooldownLength(settings, M15)
    ensures FindOpen(t.positions, keys[h]).None? && !CoolingDown(settings, t.positions, call)
  {
    hide FindOpen, LatestClosed, CooldownLength, KeyOf, CountOpen;
    assert IsClosedOf(t.positions[h], keys[h]);
  }

  lemma EntryEvaluation(settings: Settings, w: World, call: Call, keys: seq<Key>, h: nat, closed: int, at: int)
    requires IsRoomy(settings) && Calm(settings, w.tables) && ClosedAt(w.tables, keys, h, closed) && Distinct(keys)
    requires |keys| == settings.maxConcurrentPositions && keys[h].symbol in settings.symbolAllowlist
    requires KeyOf(call) == keys[h] && call.frame == [EntryRow(closed + 1)] && call.env == OPEN_MARKET
    requires call.params == StrategyParams(0.1, 0.1) && call.model == None
    requires call.timeframe == M15 && call.now >= closed + CooldownLength(settings, M15)
    ensures var (after, outcome) := Evaluate(settings, w, call, at);
            && !StopsPass(outcome)
            && |after.tables.positions| == |keys| + 1 && after.tables.positions[|keys|].key == keys[h]
            && CountOpen(after.tables.positions) == |keys|
  {
    hide Calm, IsRoomy, BuysUnits, StrategyEntry, SubmitEntry, Evaluate, EnteredPosition, Fill, SelectedSignalRow, FindOpen,
         CoolingDown, BarAlreadyProcessed, CountOpen;
    var units := settings.maxConcurrentPositions as real;
    NewestRow(settings, call, EntryRow(closed + 1));
    Processed(w.tables.orders, keys[h], closed);
    ClosedQueries(settings, w.tables, call, keys, h, closed);
    StrategyBuysUnits(settings, call, closed + 1);
    EvaluationSubmits(settings, w, call, closed + 1, at);
    EntryGoesThrough(settings, w, StrategyEntry(settings, call, EntryRow(closed + 1)), units, at);
    OneMoreIsOpen(w.tables.positions, keys[h], units, at);
  }

  lemma OneMoreIsOpen(positions: seq<PositionRow>, key: Key, units: real, at: int)
    ensures var after := positions + [EnteredPosition(Fill(key, units, at))];
            CountOpen(after) == CountOpen(positions) + 1 && after[|positions|].key == key
  {
    assert (positions + [EnteredPosition(Fill(key, units, at))])[..|positions|] == positions;
  }

  lemma EvaluationSubmits(settings: Settings, w: World, call: Call, timestamp: int, at: int)
    requires call.frame == [EntryRow(timestamp)] && SelectedSignalRow(settings, call) == Some(EntryRow(timestamp))
    requires !BarAlreadyProcessed(w.tables.orders, KeyOf(call), timestamp)
    requires FindOpen(w.tables.positions, KeyOf(call)).None? && !CoolingDown(settings, w.tables.positions, call)
    ensures var (after, outcome) := Evaluate(settings, w, call, at);
            var (entered, result) := SubmitEntry(settings, w, StrategyEntry(settings, call, EntryRow(timestamp)), call.env, at);
            after == entered && (result.Success? ==> !StopsPass(outcome))
  {
    hide SelectedSignalRow, BarAlreadyProcessed, FindOpen, CoolingDown, SubmitEntry, StrategyEntry, Manage, Recalculate, KeyOf;
  }

  // ---------- The pass ----------

  /** Position `i` is told to exit and position `j` to enter; nothing else has any data. */
  function SlowFeed(clock: Moment -> Reading, i: nat, j: nat, start: int): Feed {
    (m: Moment, strategy: string, symbol: string, timeframe: Timeframe, itype: InstrumentType) =>
      Answer(StrategyParams(0.1, 0.1),
             if m == Managing(i) then [ExitRow(start + 1)]
             else if m == Managing(j) then [EntryRow(clock(Managing(i)).at + 1)]
             else [],
             OPEN_MARKET)
  }

  function SlowPass(pass: Pass, keys: seq<Key>, i: nat, j: nat, start: int): Pass {
    pass.(settings := RoomFor(keys, pass.settings.strategyExitCooldownMinutes),
          feed := SlowFeed(pass.clock, i, j, start),
          symbols := [],
          timeframes := [])
  }

  /** The call of a position finds no data. */
  ghost predicate Silent(pass: Pass, k: nat) {
    forall strategy, symbol, timeframe, itype :: CallFor(pass, Managing(k), strategy, symbol, timeframe, itype).frame == []
  }

  lemma {:induction false} SilentStretch(pass: Pass, s: Progress, keys: seq<Key>, a: nat, b: nat)
    requires a <= b <= |keys| && forall k: nat :: a <= k < b ==> Silent(pass, k)
    ensures var before, after := ManageAll(pass, s, keys[..a]), ManageAll(pass, s, keys[..b]);
            && after.world == before.world
            && (!before.stopped && (forall k :: a <= k < b ==> !EndsPass(pass, keys[k])) ==> !after.stopped)
  {
    hide ManageOne, Silent, EndsPass;
    if a < b {
      SilentStretch(pass, s, keys, a, b - 1);
      ManageStep(pass, s, keys, b - 1);
      SilentManagement(pass, ManageAll(pass, s, keys[..b - 1]), keys[b - 1], b - 1);
    }
  }

  lemma SilentManagement(pass: Pass, s: Progress, key: Key, k: nat)
    requires Silent(pass, k)
    ensures var after := ManageOne(pass, s, key, k);
            after.world == s.world && (!s.stopped && !EndsPass(pass, key) ==> !after.stopped)
  {
    hide CallFor, ParseInstanceName, TimeframeNamed, Evaluate;
    forall call: Call, at: int | call.frame == []
      ensures Evaluate(pass.settings, s.world, call, at) == (s.world, NoData)
    {
      NoDataNoChange(pass.settings, s.world, call, at);
    }
  }

  lemma NoDataNoChange(settings: Settings, w: World, call: Call, at: int)
    requires call.frame == []
    ensures Evaluate(settings, w, call, at) == (w, NoData)
  {
    hide MarkAtLatest, Manage, Enter, BarAlreadyProcessed, FindOpen, SelectedSignalRow;
  }

  lemma ManageStep(pass: Pass, s: Progress, keys: seq<Key>, k: nat)
    requires k < |keys|
    ensures ManageAll(pass, s, keys[..k + 1]) == ManageOne(pass, ManageAll(pass, s, keys[..k]), keys[k], k)
  {
    assert keys[..k + 1][..k] == keys[..k];
    hide ManageOne;
  }

  /** Managing a position whose name is looked up on the 15m timeframe evaluates its key. */
  lemma ManagedByEvaluation(pass: Pass, w: World, key: Key, k: nat)
    requires IsRegistered(pass, key) && ParseInstanceName(key.strategy).1 == M15.Name()
    ensures var call := CallFor(pass, Managing(k), ParseInstanceName(key.strategy).0, key.symbol, M15, key.itype);
            && KeyOf(call) == LookupKey(key)
            && var (after, outcome) := Evaluate(pass.settings, w, call, pass.clock(Managing(k)).at);
               ManageOne(pass, Progress(w, false), key, k) == Progress(after, StopsPass(outcome))
  {
    hide ParseInstanceName, Evaluate, CallFor, LookupKey;
    assert TimeframeNamed(M15.Name()) == Some(M15);
    ManagedCall(pass, key, k, M15);
  }

  /** Of two different keys that are looked up under the same one, that one is looked up under itself. */
  lemma OneIsItself(a: Key, b: Key)
    requires a != b && LookupKey(a) == LookupKey(b)
    ensures LookupKey(a) == a || LookupKey(a) == b
  {
    CollidingLookups(a, b);
    ParsedNameIsItself(a.strategy);
    ParsedNameIsItself(b.strategy);
  }

  lemma NothingIsChosen(pass: Pass, t: Tables, taken: set<Key>)
    requires CountOpen(t.positions) == pass.settings.maxConcurrentPositions
    ensures Chosen(pass, t, taken) == []
  {
    hide Candidates, RankEntryCandidates, CountOpen;
  }

  /** Something that was open when the pass began is entered by it. */
  ghost predicate Reenters(pass: Pass, w: World) {
    var before, after := w.tables.positions, RunPass(pass, w).world.tables.positions;
    exists k :: |before| <= k < |after| && after[k].key in OpenKeys(before)
  }

  /** The first of the two calls closes, and the second one enters again. */
  lemma BothEvaluations(pass: Pass, w: World, keys: seq<Key>, i: nat, j: nat, h: nat, start: int)
    requires Ticking(pass.clock, start) && LookedUpLate(pass, keys, i, j) && Distinct(keys)
    requires h < |keys| && keys[h] == LookupKey(keys[i])
    requires var settings := SlowPass(pass, keys, i, j, start).settings;
             Calm(settings, w.tables) && AreBought(w.tables, keys, start)
    ensures var slow := SlowPass(pass, keys, i, j, start);
            var first := ManageOne(slow, Progress(w, false), keys[i], i);
            var second := ManageOne(slow, first, keys[j], j);
            && !first.stopped && !second.stopped
            && var after := second.world.tables.positions;
               && |after| == |keys| + 1 && after[|keys|].key == keys[h] && CountOpen(after) == |keys|
  {
    hide ParseInstanceName, LookupKey, CallFor, KeyOf, Evaluate, ManageOne, Calm, AreBought, ClosedAt, CountOpen, IsRoomy,
         CooldownLength, ExitRow, EntryRow, Timeframe.Name, SlowPass, EndsPass;
    var slow := SlowPass(pass, keys, i, j, start);
    var closed, at := pass.clock(Managing(i)).at, pass.clock(Managing(j)).at;
    TwoKeys(pass, keys, i, j);
    CollidingLookups(keys[i], keys[j]);
    SlowSettings(pass, keys, i, j, start);
    var strategy := ParseInstanceName(keys[i].strategy).0;
    var exit := CallFor(slow, Managing(i), strategy, keys[i].symbol, M15, keys[i].itype);
    var entry := CallFor(slow, Managing(j), strategy, keys[j].symbol, M15, keys[j].itype);
    SlowCalls(pass, keys, i, j, start, strategy, keys[i].symbol, keys[i].itype);
    ManagedByEvaluation(slow, w, keys[i], i);
    ExitEvaluation(slow.settings, w, exit, keys, h, start, closed);
    var first := Evaluate(slow.settings, w, exit, closed).0;
    ManagedByEvaluation(slow, first, keys[j], j);
    EntryEvaluation(slow.settings, first, entry, keys, h, closed, at);
  }

  /** What the two calls of the pass read. */
  lemma SlowCalls(pass: Pass, keys: seq<Key>, i: nat, j: nat, start: int, strategy: string, symbol: string, itype: InstrumentType)
    requires i != j
    ensures var slow := SlowPass(pass, keys, i, j, start);
            var exit := CallFor(slow, Managing(i), strategy, symbol, M15, itype);
            var entry := CallFor(slow, Managing(j), strategy, symbol, M15, itype);
            && slow.clock == pass.clock && slow.names == pass.names
            && CooldownLength(slow.settings, M15) == CooldownLength(pass.settings, M15)
            && exit.frame == [ExitRow(start + 1)] && exit.env == entry.env == OPEN_MARKET
            && entry.frame == [EntryRow(pass.clock(Managing(i)).at + 1)]
            && entry.params == StrategyParams(0.1, 0.1) && entry.model == None
            && entry.timeframe == M15 && entry.now == pass.clock(Managing(j)).now
  {
  }

  lemma RoomIsRoomy(keys: seq<Key>, cooldownMinutes: int)
    requires keys != []
    ensures var settings := RoomFor(keys, cooldownMinutes);
            && IsRoomy(settings) && settings.maxConcurrentPositions == |keys|
            && forall k :: 0 <= k < |keys| ==> keys[k].symbol in settings.symbolAllowlist
  {
    assert forall k :: 0 <= k < |keys| ==> SymbolsOf(keys)[k] == keys[k].symbol;
  }

  /** Where position `j` is looked up late, there are data with which the pass over the positions of these
      keys, bought in a run, enters the key again that both positions are looked up under. */
  lemma LateLookupReenters(pass: Pass, keys: seq<Key>, i: nat, j: nat, start: int)
    requires Ticking(pass.clock, start) && LookedUpLate(pass, keys, i, j) && Distinct(keys)
    ensures var slow := SlowPass(pass, keys, i, j, start);
            var w := Run(slow.settings, Purchases(keys, start));
            && Safe(slow.settings, w.tables.positions, start)
            && ManagedKeys(w.tables.positions) == keys
            && Reenters(slow, w)
  {
    hide *;
    TwoKeys(pass, keys, i, j);
    var slow := SlowPass(pass, keys, i, j, start);
    var w := Run(slow.settings, Purchases(keys, start));
    SlowSettings(pass, keys, i, j, start);
    StartOfRun(slow.settings, keys, start);
    OneIsItself(keys[i], keys[j]);
    var h := if LookupKey(keys[i]) == keys[i] then i else j;
    BothEvaluations(pass, w, keys, i, j, h, start);
    ManagementReenters(pass, w, keys, i, j, start);
    EndsReentered(slow, w, keys, h);
  }

  lemma TwoKeys(pass: Pass, keys: seq<Key>, i: nat, j: nat)
    requires LookedUpLate(pass, keys, i, j) && Distinct(keys)
    ensures i < j < |keys| && LookupKey(keys[i]) == LookupKey(keys[j]) && keys[i] != keys[j]
    ensures keys[i].symbol == keys[j].symbol && keys[i].itype == keys[j].itype
  {
    hide ParseInstanceName, CooldownLength;
  }

  lemma SlowSettings(pass: Pass, keys: seq<Key>, i: nat, j: nat, start: int)
    requires keys != []
    ensures var settings := SlowPass(pass, keys, i, j, start).settings;
            && IsRoomy(settings) && settings.maxConcurrentPositions == |keys|
            && forall k :: 0 <= k < |keys| ==> keys[k].symbol in settings.symbolAllowlist
  {
    RoomIsRoomy(keys, pass.settings.strategyExitCooldownMinutes);
    hide RoomFor, IsRoomy;
  }

  lemma StartOfRun(settings: Settings, keys: seq<Key>, at: int)
    requires IsRoomy(settings) && settings.maxConcurrentPositions == |keys| && Distinct(keys)
    requires forall k :: 0 <= k < |keys| ==> keys[k].symbol in settings.symbolAllowlist
    ensures var t := Run(settings, Purchases(keys, at)).tables;
            && Calm(settings, t) && AreBought(t, keys, at) && Safe(settings, t.positions, at)
            && |t.positions| == |keys| && ManagedKeys(t.positions) == keys
            && forall k :: 0 <= k < |keys| ==> keys[k] in OpenKeys(t.positions)
  {
    AllAreBought(settings, keys, at);
    PurchasesAreSafe(settings, keys, at);
    BoughtKeysAreManaged(Run(settings, Purchases(keys, at)).tables, keys, at);
    hide Run, Purchases, Safe, Calm, IsRoomy, ManagedKeys, OpenKeys, Bought;
  }

  /** If managing has entered an open key and filled all slots, so has the pass. */
  lemma EndsReentered(pass: Pass, w: World, keys: seq<Key>, h: nat)
    requires ManagedKeys(w.tables.positions) == keys && h < |keys| == |w.tables.positions|
    requires keys[h] in OpenKeys(w.tables.positions) && pass.settings.maxConcurrentPositions == |keys|
    requires var after := ManageAll(pass, Progress(w, false), keys).world.tables.positions;
             |after| == |keys| + 1 && after[|keys|].key == keys[h] && CountOpen(after) == |keys|
    ensures Reenters(pass, w)
  {
    var managed := ManageAll(pass, Progress(w, false), keys);
    NothingIsChosen(pass, managed.world.tables, OpenKeys(w.tables.positions));
    hide ManageAll, ManagedKeys, OpenKeys, CountOpen, Chosen, Attempt;
  }

  lemma SilentElsewhere(pass: Pass, keys: seq<Key>, i: nat, j: nat, start: int)
    ensures var slow := SlowPass(pass, keys, i, j, start);
            && (forall k: nat :: k != i && k != j ==> Silent(slow, k))
            && forall k :: 0 <= k < |keys| ==> EndsPass(slow, keys[k]) == EndsPass(pass, keys[k])
  {
    hide ParseInstanceName, TimeframeNamed;
  }

  /** Nothing but the two evaluations changes anything. */
  lemma ManagementReenters(pass: Pass, w: World, keys: seq<Key>, i: nat, j: nat, start: int)
    requires LookedUpLate(pass, keys, i, j)
    requires !ManageOne(SlowPass(pass, keys, i, j, start), Progress(w, false), keys[i], i).stopped
    ensures var slow := SlowPass(pass, keys, i, j, start);
            var first := ManageOne(slow, Progress(w, false), keys[i], i);
            ManageAll(slow, Progress(w, false), keys).world == ManageOne(slow, first, keys[j], j).world
  {
    hide SlowPass, ManageOne, EndsPass, Silent, LookupKey, ManagedKeys, RunPass, Evaluate;
    var slow, s := SlowPass(pass, keys, i, j, start), Progress(w, false);
    SilentElsewhere(pass, keys, i, j, start);
    SilentStretch(slow, s, keys, 0, i);
    assert ManageAll(slow, s, keys[..0]) == s;
    ManageStep(slow, s, keys, i);
    SilentStretch(slow, s, keys, i + 1, j);
    ManageStep(slow, s, keys, j);
    SilentStretch(slow, s, keys, j + 1, |keys|);
    assert keys[..|keys|] == keys;
  }

  // ---------- When a pass can enter again ----------

  /** The same clock, registry and cooldown. */
  ghost predicate SameTiming(a: Pass, b: Pass) {
    && a.clock == b.clock && a.names == b.names
    && a.settings.strategyExitCooldownMinutes == b.settings.strategyExitCooldownMinutes
  }

  /** The clock, the registry, the cooldown and the stored names decide whether anything that was open at the
      start can be entered again, by whatever data and from whatever state: exactly if a position is looked up
      late. */
  lemma TimingDecidesReentry(pass: Pass, keys: seq<Key>, start: int)
    requires Ticking(pass.clock, start) && Distinct(pass.names) && Distinct(keys)
    ensures LookedUpInTime(pass, keys) <==>
            forall other: Pass, w: World ::
              (&& SameTiming(pass, other) && Distinct(other.symbols) && Distinct(other.timeframes)
               && Safe(other.settings, w.tables.positions, start) && ManagedKeys(w.tables.positions) == keys)
              ==> !Reenters(other, w)
  {
    hide Safe, ManagedKeys, OpenKeys, RunPass, Ticking, Run, Purchases, LookupKey;
    if LookedUpInTime(pass, keys) {
      forall other: Pass, w: World
        | && SameTiming(pass, other) && Distinct(other.symbols) && Distinct(other.timeframes)
          && Safe(other.settings, w.tables.positions, start) && ManagedKeys(w.tables.positions) == keys
        ensures !Reenters(other, w)
      {
        SameTimingIsAsLate(pass, other, keys);
        OpenKeysAreNotReentered(other, w, start);
      }
    } else {
      var i: nat, j: nat :| LookedUpLate(pass, keys, i, j);
      LateLookupReenters(pass, keys, i, j, start);
      assert SameTiming(pass, SlowPass(pass, keys, i, j, start));
    }
  }

  lemma SameTimingIsAsLate(pass: Pass, other: Pass, keys: seq<Key>)
    requires SameTiming(pass, other) && LookedUpInTime(pass, keys)
    ensures LookedUpInTime(other, keys)
  {
    hide LookupKey;
    forall i: nat, j: nat
      ensures !LookedUpLate(other, keys, i, j)
    {
      assert !LookedUpLate(pass, keys, i, j);
      assert forall k :: 0 <= k < |keys| ==> EndsPass(pass, keys[k]) == EndsPass(other, keys[k]);
    }
  }
}
