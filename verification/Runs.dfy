/** Runs of the paper engine from empty tables, and what holds in every state they reach. */
module Runs {
  import opened Common
  import opened Config
  import opened Ledger
  import opened PaperExchange
  import opened Risk
  import opened Execution
  import opened Evolution

  /** What can happen to the engine: a strategy evaluation, any other entry (manual or by an advisor),
      a close by id, a cancellation, a funding charge, a repricing. Each happens at a time. */
  datatype Action =
    | EvaluateCall(call: Call, at: int)
    | SubmitOther(args: EntryArgs, env: Env, at: int)
    | CloseById(id: nat, referencePrice: Option<real>, env: Env, at: int)
    | CancelById(orderId: nat, at: int)
    | ChargeFunding(id: nat, cost: real, at: int)
    | RepriceTo(prices: map<string, real>, at: int)

  function Apply(settings: Settings, w: World, action: Action): World {
    match action
    case EvaluateCall(call, at) => Evaluate(settings, w, call, at).0
    case SubmitOther(args, env, at) => SubmitEntry(settings, w, args, env, at).0
    case CloseById(id, reference, env, at) => ClosePositionById(settings, w, id, reference, env, at).0
    case CancelById(orderId, _) => CancelOrder(w, orderId).0
    case ChargeFunding(id, cost, at) =>
      if id < |w.tables.positions| then w.(tables := RecordFunding(w.tables, id, cost, at)) else w
    case RepriceTo(prices, _) => w.(tables := Recalculate(w.tables, prices))
  }

  function Empty(settings: Settings): World {
    World(EmptyTables(settings.paperStartingBalance), ExchangeState(map[], 0))
  }

  function Run(settings: Settings, actions: seq<Action>): World {
    if actions == [] then Empty(settings)
    else Apply(settings, Run(settings, actions[..|actions| - 1]), actions[|actions| - 1])
  }

  /** The clock never goes back, and an evaluation's `now` is not after the rows it writes nor before
      the previous action. */
  ghost predicate Clocked(actions: seq<Action>) {
    && (forall i, j :: 0 <= i < j < |actions| ==> actions[i].at <= actions[j].at)
    && (forall i :: 0 <= i < |actions| && actions[i].EvaluateCall? ==> actions[i].call.now <= actions[i].at)
    && (forall i, j :: 0 <= i < j < |actions| && actions[j].EvaluateCall? ==> actions[i].at <= actions[j].call.now)
  }

  // ---------- Every action as a change ----------

  function ChangeOf(settings: Settings, w: World, action: Action): Change {
    match action
    case EvaluateCall(call, at) => EvaluationChange(settings, w, call, at)
    case SubmitOther(args, env, at) => EntryChange(settings, w, args, env, at)
    case CloseById(id, reference, env, at) =>
      if id < |w.tables.positions| then
        CloseChange(settings, w, id, MarketClose(ManualReference(w.tables.positions[id], reference), ManualExit), env, at)
      else NoChange
    case _ => NoChange
  }

  /** Rows that agree in everything that the invariants below speak of. */
  ghost predicate SameShape(a: seq<PositionRow>, b: seq<PositionRow>) {
    && |a| == |b|
    && forall i :: 0 <= i < |a| ==>
         && a[i].key == b[i].key && a[i].status == b[i].status
         && a[i].openedAt == b[i].openedAt && a[i].closedAt == b[i].closedAt && a[i].exitReason == b[i].exitReason
  }

  lemma RemarkedIsSameShape(a: seq<PositionRow>, b: seq<PositionRow>)
    requires Remarked(a, b)
    ensures SameShape(a, b)
  {
    forall i | 0 <= i < |a|
      ensures a[i].key == b[i].key && a[i].status == b[i].status
              && a[i].openedAt == b[i].openedAt && a[i].closedAt == b[i].closedAt && a[i].exitReason == b[i].exitReason
    {
      assert Unmarked(a[i]) == Unmarked(b[i]);
    }
  }

  lemma ActionEvolves(settings: Settings, w: World, action: Action)
    ensures Allowed(settings, w.tables.positions, ChangeOf(settings, w, action), action.at)
    ensures SameShape(Changed(w.tables.positions, ChangeOf(settings, w, action)), Apply(settings, w, action).tables.positions)
  {
    hide Evaluate, SubmitEntry, ClosePosition, EvaluationChange, EntryChange, CloseChange;
    var change, after := ChangeOf(settings, w, action), Apply(settings, w, action).tables.positions;
    match action
    case EvaluateCall(call, at) =>
      EvaluationEvolves(settings, w, call, at);
      RemarkedIsSameShape(Changed(w.tables.positions, change), after);
    case SubmitOther(args, env, at) =>
      EntryEvolves(settings, w, args, env, at);
      RemarkedIsSameShape(Changed(w.tables.positions, change), after);
    case CloseById(id, reference, env, at) =>
      if id < |w.tables.positions| {
        CloseEvolves(settings, w, id, MarketClose(ManualReference(w.tables.positions[id], reference), ManualExit), env, at);
        RemarkedIsSameShape(Changed(w.tables.positions, change), after);
      }
    case CancelById(orderId, _) =>
    case ChargeFunding(id, cost, at) =>
    case RepriceTo(prices, _) =>
      RecalculationRemarks(w.tables, prices);
      RemarkedIsSameShape(w.tables.positions, after);
  }

  // ---------- Safety ----------

  /** Times are sound: a position is closed exactly when it has a closing time, which is not before
      its opening, and nothing lies after the clock. */
  ghost predicate Timed(positions: seq<PositionRow>, clock: int) {
    forall i :: 0 <= i < |positions| ==>
      var p := positions[i];
      && (p.status == Closed <==> p.closedAt.Some?)
      && p.openedAt <= clock
      && (p.closedAt.Some? ==> p.openedAt <= p.closedAt.value <= clock)
  }

  /** The positions of one key follow one another: an earlier one was closed before a later one was
      opened. So a key has at most one open position. */
  ghost predicate OneAtATime(positions: seq<PositionRow>) {
    forall i, j :: 0 <= i < j < |positions| && positions[i].key == positions[j].key ==>
      positions[i].closedAt.Some? && positions[i].closedAt.value <= positions[j].openedAt
  }

  /** No position was opened in a symbol within the cooldown after an earlier stop-loss close in it,
      by whatever strategy. */
  ghost predicate StopLossSpaced(settings: Settings, positions: seq<PositionRow>) {
    forall i, j ::
      (&& 0 <= i < |positions| && 0 <= j < |positions|
       && positions[i].key.symbol == positions[j].key.symbol
       && positions[i].exitReason == Some(ExitReason.StopLoss) && positions[i].closedAt.Some?
       && positions[i].closedAt.value < positions[j].openedAt) ==>
      positions[j].openedAt > positions[i].closedAt.value + settings.stopLossCooldownMinutes * MINUTE
  }

  function Slots(settings: Settings): nat {
    if settings.maxConcurrentPositions >= 0 then settings.maxConcurrentPositions else 0
  }

  ghost predicate Safe(settings: Settings, positions: seq<PositionRow>, clock: int) {
    && CountOpen(positions) <= Slots(settings)
    && Timed(positions, clock)
    && OneAtATime(positions)
    && StopLossSpaced(settings, positions)
  }

  lemma {:induction false} SameShapeCount(a: seq<PositionRow>, b: seq<PositionRow>)
    requires SameShape(a, b)
    ensures CountOpen(a) == CountOpen(b)
  {
    if a != [] {
      SameShapeCount(a[..|a| - 1], b[..|b| - 1]);
    }
  }

  lemma {:induction false} CountAfterClose(positions: seq<PositionRow>, id: nat, row: PositionRow)
    requires id < |positions| && positions[id].status == Open
    ensures CountOpen(positions[id := row]) <= CountOpen(positions)
  {
    var n := |positions| - 1;
    if id == n {
      assert positions[id := row][..n] == positions[..n];
    } else {
      assert positions[id := row][..n] == positions[..n][id := row];
      CountAfterClose(positions[..n], id, row);
    }
  }

  lemma OpeningIsSafe(settings: Settings, positions: seq<PositionRow>, clock: int, row: PositionRow, at: int)
    requires Safe(settings, positions, clock) && clock <= at && Opening(settings, positions, row, at)
    ensures Safe(settings, positions + [row], at)
  {
    var n, after := |positions|, positions + [row];
    assert after[..n] == positions;
    forall i | 0 <= i < n && positions[i].key == row.key
      ensures positions[i].closedAt.Some? && positions[i].closedAt.value <= row.openedAt
    {
      assert positions[i].status == Closed;
    }
    forall i | 0 <= i < n && positions[i].key.symbol == row.key.symbol
               && positions[i].exitReason == Some(ExitReason.StopLoss) && positions[i].closedAt.Some?
      ensures row.openedAt > positions[i].closedAt.value + settings.stopLossCooldownMinutes * MINUTE
    {
      assert positions[i] in positions;
      assert !StoppedOutSince(positions[i], row.key.symbol, CooldownThreshold(settings, at));
    }
  }

  lemma ReducingIsSafe(settings: Settings, positions: seq<PositionRow>, clock: int, id: nat, row: PositionRow,
                       reason: ExitReason, at: int)
    requires Safe(settings, positions, clock) && clock <= at && Reducing(positions, id, row, reason, at)
    ensures Safe(settings, positions[id := row], at)
  {
    CountAfterClose(positions, id, row);
  }

  lemma ActionIsSafe(settings: Settings, w: World, action: Action, clock: int)
    requires Safe(settings, w.tables.positions, clock) && clock <= action.at
    ensures Safe(settings, Apply(settings, w, action).tables.positions, action.at)
  {
    hide Apply, ChangeOf;
    var positions, change := w.tables.positions, ChangeOf(settings, w, action);
    ActionEvolves(settings, w, action);
    match change {
      case NoChange =>
      case Opened(row) => OpeningIsSafe(settings, positions, clock, row, action.at);
      case Reduced(id, row, reason) => ReducingIsSafe(settings, positions, clock, id, row, reason, action.at);
    }
    SameShapeIsSafe(settings, Changed(positions, change), Apply(settings, w, action).tables.positions, action.at);
  }

  lemma SameShapeIsSafe(settings: Settings, a: seq<PositionRow>, b: seq<PositionRow>, clock: int)
    requires Safe(settings, a, clock) && SameShape(a, b)
    ensures Safe(settings, b, clock)
  {
    SameShapeCount(a, b);
  }

  function Now(actions: seq<Action>): int {
    if actions == [] then 0 else actions[|actions| - 1].at
  }

  /** Every state that a run reaches is safe. */
  lemma {:induction false} EveryRunIsSafe(settings: Settings, actions: seq<Action>)
    requires Clocked(actions)
    ensures Safe(settings, Run(settings, actions).tables.positions, Now(actions))
  {
    hide Apply;
    if actions != [] {
      var n := |actions| - 1;
      var init := actions[..n];
      EveryRunIsSafe(settings, init);
      var w := Run(settings, init);
      if n == 0 {
        assert w.tables.positions == [];
        ActionIsSafe(settings, w, actions[n], actions[n].at);
      } else {
        assert init[n - 1] == actions[n - 1];
        ActionIsSafe(settings, w, actions[n], actions[n - 1].at);
      }
    }
  }

  /** In particular a key never has two open positions. */
  lemma AtMostOneOpenPerKey(settings: Settings, actions: seq<Action>, i: nat, j: nat)
    requires Clocked(actions)
    requires var positions := Run(settings, actions).tables.positions;
             && i < |positions| && j < |positions|
             && positions[i].key == positions[j].key
             && positions[i].status == Open && positions[j].status == Open
    ensures i == j
  {
    EveryRunIsSafe(settings, actions);
  }

  // ---------- Strategy pacing ----------

  /** In closed-bar mode any order that an evaluation places or has rejected acts on a bar that had
      closed, carries the time of the action, and is more than one bar later than every earlier order
      of its key; and the order of an entry, rejected or unfilled included, finds no cooldown. */
  lemma EvaluationIsPaced(settings: Settings, w: World, call: Call, at: int)
    requires settings.evaluateOnBarCloseOnly && call.now <= at
    ensures var before, after := w.tables.orders, Evaluate(settings, w, call, at).0.tables.orders;
            after != before ==>
              && |after| == |before| + 1 && after[..|before|] == before
              && after[|before|].key == KeyOf(call) && after[|before|].createdAt == at
              && call.frame != []
              && SelectedSignalRow(settings, call).Some?
              && SelectedSignalRow(settings, call).value.timestamp + call.timeframe.Length() <= call.now
              && (forall o :: o in before && o.key == KeyOf(call) ==> o.createdAt + call.timeframe.Length() < call.now)
              && (FindOpen(w.tables.positions, KeyOf(call)).None? ==> !CoolingDown(settings, w.tables.positions, call))
  {
    EvaluationEvolves(settings, w, call, at);
  }

  /** The name of a strategy instance on a timeframe. */
  predicate IsInstance(name: string, timeframe: Timeframe) {
    var suffix := "@" + timeframe.Name();
    |suffix| <= |name| && name[|name| - |suffix|..] == suffix
  }

  /** An instance name determines its timeframe. */
  lemma InstanceNames(strategy: string, timeframe: Timeframe, other: Timeframe)
    ensures IsInstance(InstanceName(strategy, timeframe), timeframe)
    ensures IsInstance(InstanceName(strategy, timeframe), other) ==> other == timeframe
  {
    var name := InstanceName(strategy, timeframe);
    var suffix := "@" + timeframe.Name();
    assert name == strategy + suffix;
    assert name[|name| - |suffix|..] == suffix;
    if IsInstance(name, other) {
      var k := |other.Name()| + 1;
      assert name[|name| - k] == '@';
      assert name[|name| - 1] == other.Name()[|other.Name()| - 1];
      assert name[|name| - 2] == other.Name()[|other.Name()| - 2];
      assert name[|name| - 1] == timeframe.Name()[|timeframe.Name()| - 1];
      assert name[|name| - 2] == timeframe.Name()[|timeframe.Name()| - 2];
      assert name[|strategy|] == '@' && name[|strategy| + 1] == timeframe.Name()[0];
    }
  }

  /** Between a close that was not manual and the next opening of the same strategy instance lies at
      least the cooldown of its timeframe. */
  ghost predicate CooledDown(settings: Settings, positions: seq<PositionRow>) {
    forall i, j, timeframe ::
      (&& 0 <= i < j < |positions|
       && positions[i].key == positions[j].key && IsInstance(positions[i].key.strategy, timeframe)
       && positions[i].closedAt.Some? && positions[i].exitReason != Some(ManualExit)) ==>
      positions[j].openedAt >= positions[i].closedAt.value + CooldownLength(settings, timeframe)
  }

  /** Strategy instances are entered by evaluations only: other entries use names without a timeframe. */
  ghost predicate InstancesAreEvaluated(actions: seq<Action>) {
    forall i, timeframe :: 0 <= i < |actions| && actions[i].SubmitOther? ==>
      !IsInstance(actions[i].args.key.strategy, timeframe)
  }

  /** An evaluation that opens a position is past the cooldown of every earlier close that was not
      manual, even if a manual close came after it. */
  lemma OpeningIsCooledDown(settings: Settings, positions: seq<PositionRow>, clock: int, call: Call, i: nat)
    requires Timed(positions, clock) && OneAtATime(positions) && CooledDown(settings, positions)
    requires clock <= call.now && !CoolingDown(settings, positions, call)
    requires i < |positions| && positions[i].key == KeyOf(call)
    requires positions[i].closedAt.Some? && positions[i].exitReason != Some(ManualExit)
    ensures call.now >= positions[i].closedAt.value + CooldownLength(settings, call.timeframe)
  {
    InstanceNames(call.strategy, call.timeframe, call.timeframe);
    var latest := LatestClosed(positions, KeyOf(call));
    assert IsClosedOf(positions[i], KeyOf(call));
    var l := latest.value;
    if positions[l].exitReason == Some(ManualExit) {
      assert i < l;
    }
  }

  /** Over every run, whatever an evaluation of a key without an open position orders, filled or not,
      comes no sooner than the cooldown after every earlier close of the key that was not manual. */
  lemma EveryEntryOrderIsCooledDown(settings: Settings, actions: seq<Action>, call: Call, at: int, i: nat)
    requires Clocked(actions + [EvaluateCall(call, at)]) && InstancesAreEvaluated(actions)
    requires settings.evaluateOnBarCloseOnly
    ensures var w := Run(settings, actions);
            var positions := w.tables.positions;
            Evaluate(settings, w, call, at).0.tables.orders != w.tables.orders
            && FindOpen(positions, KeyOf(call)).None?
            && i < |positions| && positions[i].key == KeyOf(call)
            && positions[i].closedAt.Some? && positions[i].exitReason != Some(ManualExit) ==>
              call.now >= positions[i].closedAt.value + CooldownLength(settings, call.timeframe)
  {
    hide Evaluate, Run, CoolingDown, Timed, OneAtATime, CooledDown, StopLossSpaced;
    var w := Run(settings, actions);
    var all := actions + [EvaluateCall(call, at)];
    var n := |actions|;
    assert forall k :: 0 <= k < n ==> all[k] == actions[k];
    assert all[n] == EvaluateCall(call, at);
    assert n > 0 ==> all[n - 1].at <= call.now;
    EveryRunIsSafe(settings, actions);
    EveryRunIsCooledDown(settings, actions);
    EvaluationIsPaced(settings, w, call, at);
    if Evaluate(settings, w, call, at).0.tables.orders != w.tables.orders
       && FindOpen(w.tables.positions, KeyOf(call)).None?
       && i < |w.tables.positions| && w.tables.positions[i].key == KeyOf(call)
       && w.tables.positions[i].closedAt.Some? && w.tables.positions[i].exitReason != Some(ManualExit)
    {
      RunsAreEmptyAtFirst(settings, actions);
      OpeningIsCooledDown(settings, w.tables.positions, Now(actions), call, i);
    }
  }

  lemma RunsAreEmptyAtFirst(settings: Settings, actions: seq<Action>)
    ensures actions == [] ==> Run(settings, actions).tables.positions == []
  {
  }

  lemma {:induction false} EveryRunIsCooledDown(settings: Settings, actions: seq<Action>)
    requires Clocked(actions) && InstancesAreEvaluated(actions)
    ensures CooledDown(settings, Run(settings, actions).tables.positions)
  {
    hide Apply, ChangeOf;
    if actions != [] {
      var n := |actions| - 1;
      var init, action := actions[..n], actions[n];
      EveryRunIsCooledDown(settings, init);
      EveryRunIsSafe(settings, init);
      var w := Run(settings, init);
      if n > 0 {
        assert init[n - 1] == actions[n - 1];
      }
      ChangeIsCooledDown(settings, w, action, Now(init));
    }
  }

  lemma ChangeIsCooledDown(settings: Settings, w: World, action: Action, clock: int)
    requires Safe(settings, w.tables.positions, clock) && CooledDown(settings, w.tables.positions)
    requires w.tables.positions == [] || clock <= action.at
    requires action.EvaluateCall? ==> action.call.now <= action.at && (w.tables.positions == [] || clock <= action.call.now)
    requires action.SubmitOther? ==> forall timeframe :: !IsInstance(action.args.key.strategy, timeframe)
    ensures CooledDown(settings, Apply(settings, w, action).tables.positions)
  {
    hide Apply, ChangeOf;
    var positions, change := w.tables.positions, ChangeOf(settings, w, action);
    ActionEvolves(settings, w, action);
    if change.Opened? {
      forall i, timeframe | 0 <= i < |positions| && positions[i].key == change.row.key
                            && IsInstance(positions[i].key.strategy, timeframe)
                            && positions[i].closedAt.Some? && positions[i].exitReason != Some(ManualExit)
        ensures change.row.openedAt >= positions[i].closedAt.value + CooldownLength(settings, timeframe)
      {
        OpenedByEvaluation(settings, w, action);
        InstanceNames(action.call.strategy, action.call.timeframe, timeframe);
        OpeningIsCooledDown(settings, positions, clock, action.call, i);
      }
    }
    assert CooledDown(settings, Changed(positions, change));
  }

  /** A position with an instance name is opened by an evaluation that found no cooldown. */
  lemma OpenedByEvaluation(settings: Settings, w: World, action: Action)
    requires action.SubmitOther? ==> forall timeframe :: !IsInstance(action.args.key.strategy, timeframe)
    ensures var change := ChangeOf(settings, w, action);
            change.Opened? && (exists timeframe :: IsInstance(change.row.key.strategy, timeframe)) ==>
              && action.EvaluateCall?
              && change.row.key == KeyOf(action.call)
              && !CoolingDown(settings, w.tables.positions, action.call)
  {
  }
}
