/** Previewing a candidate against evaluating it (app/services/execution_service.py:267-406, 955-1093). */
module PreviewLaws {
  import opened Common
  import opened Config
  import opened Strategy
  import opened Ledger
  import opened Execution
  import opened Evolution

  /** The evaluation gets as far as submitting an entry for `side`: it returns the order, or the error
      that the submission raised while no position was open. */
  predicate ReachesEntry(settings: Settings, w: World, call: Call, at: int, side: PositionSide) {
    match Evaluate(settings, w, call, at).1
    case Entered(_, entered) => entered == side
    case Raised(_) =>
      && FindOpen(w.tables.positions, KeyOf(call)).None?
      && call.frame != []
      && SelectedSignalRow(settings, call).Some?
      && DesiredPositionSide(SelectedSignalRow(settings, call).value) == side
    case _ => false
  }

  /** When an evaluation without an open position submits an entry, and for which side. */
  lemma EnterSubmits(settings: Settings, w: World, call: Call, row: SignalRow, at: int)
    ensures var outcome := Enter(settings, w, call, row, at).1;
            && (outcome.Raised? || outcome.Entered?
                <==> !CoolingDown(settings, w.tables.positions, call) && ShouldEnter(row, false)
                     && !(call.itype == Spot && DesiredPositionSide(row) == Short))
            && (outcome.Entered? ==> outcome.side == DesiredPositionSide(row))
  {
    var (_, result) := SubmitEntry(settings, w, StrategyEntry(settings, call, row), call.env, at);
  }

  lemma ManageNeverEnters(settings: Settings, w: World, call: Call, id: nat, row: SignalRow, at: int)
    requires id < |w.tables.positions|
    ensures !Manage(settings, w, call, id, row, at).1.Entered?
  {
  }

  /** For the same tables, data and clock, the preview announces an entry for a side exactly when the
      evaluation submits one, whatever comes of it; and an occupied key is never entered. */
  lemma PreviewAgreesWithEvaluation(settings: Settings, w: World, call: Call, at: int, side: PositionSide)
    ensures var preview := PreviewCandidate(settings, w.tables, call);
            && (preview.PreviewEntry? && preview.side == side <==> ReachesEntry(settings, w, call, at, side))
            && (preview.PreviewEntry? ==> preview.confidence == SelectedSignalRow(settings, call).value.confidence)
            && (preview.PreviewOccupied? ==> !ReachesEntry(settings, w, call, at, side))
  {
    hide Manage, Enter, CoolingDown, Recalculate;
    if call.frame != [] && SelectedSignalRow(settings, call).Some? {
      var row := SelectedSignalRow(settings, call).value;
      var open := FindOpen(w.tables.positions, KeyOf(call));
      if open.Some? {
        RecalculationRemarks(w.tables, map[call.symbol := call.frame[|call.frame| - 1].close]);
        ManageNeverEnters(settings, MarkAtLatest(w, call), call, open.value, row, at);
      } else {
        EnterSubmits(settings, w, call, row, at);
      }
    }
  }

  // ---------- Other keys ----------

  /** A change that concerns only the rows of `key`. */
  predicate ConcernsOnly(positions: seq<PositionRow>, change: Change, key: Key) {
    match change
    case NoChange => true
    case Opened(row) => row.key == key
    case Reduced(id, row, _) => id < |positions| && positions[id].key == key && row.key == key
  }

  lemma {:induction false} FindOpenElsewhere(positions: seq<PositionRow>, id: nat, row: PositionRow, key: Key)
    requires id < |positions| && positions[id].key != key && row.key != key
    ensures FindOpen(positions[id := row], key) == FindOpen(positions, key)
  {
    var n := |positions| - 1;
    if id == n {
      assert positions[id := row][..n] == positions[..n];
    } else {
      assert positions[id := row][..n] == positions[..n][id := row];
      FindOpenElsewhere(positions[..n], id, row, key);
    }
  }

  /** What a change of one key leaves of the queries about another. */
  lemma QueriesElsewhere(positions: seq<PositionRow>, change: Change, key: Key, other: Key)
    requires ConcernsOnly(positions, change, key) && key != other
    ensures FindOpen(Changed(positions, change), other) == FindOpen(positions, other)
    ensures LatestClosed(Changed(positions, change), other) == LatestClosed(positions, other)
    ensures forall i :: 0 <= i < |positions| && positions[i].key == other ==> Changed(positions, change)[i] == positions[i]
  {
    match change
    case NoChange =>
    case Opened(row) =>
      assert (positions + [row])[..|positions|] == positions;
    case Reduced(id, row, _) =>
      FindOpenElsewhere(positions, id, row, other);
      LatestClosedElsewhere(positions, positions[id := row], other);
  }

  lemma LatestClosedElsewhere(a: seq<PositionRow>, b: seq<PositionRow>, key: Key)
    requires |a| == |b|
    requires forall i :: 0 <= i < |a| ==> (a[i].key == key <==> b[i].key == key) && (a[i].key == key ==> a[i] == b[i])
    ensures LatestClosed(a, key) == LatestClosed(b, key)
  {
    assert forall i :: 0 <= i < |a| ==> IsClosedOf(a[i], key) == IsClosedOf(b[i], key);
  }

  lemma OrdersElsewhere(before: seq<OrderRow>, after: seq<OrderRow>, key: Key, at: int, other: Key)
    requires AtMostOneOrder(before, after, key, at) && key != other
    ensures LatestOrderAt(after, other) == LatestOrderAt(before, other)
  {
    if after != before {
      assert after[..|after| - 1] == before;
    }
  }

  /** Everything that the preview of a call reads. */
  lemma PreviewReadsOnly(settings: Settings, t: Tables, t': Tables, call: Call)
    requires LatestOrderAt(t.orders, KeyOf(call)) == LatestOrderAt(t'.orders, KeyOf(call))
    requires FindOpen(t.positions, KeyOf(call)) == FindOpen(t'.positions, KeyOf(call))
    requires LatestClosed(t.positions, KeyOf(call)) == LatestClosed(t'.positions, KeyOf(call))
    requires |t.positions| <= |t'.positions|
    requires forall i :: 0 <= i < |t.positions| && t.positions[i].key == KeyOf(call) ==>
               Unmarked(t.positions[i]) == Unmarked(t'.positions[i])
    ensures PreviewCandidate(settings, t, call) == PreviewCandidate(settings, t', call)
  {
    var latest := LatestClosed(t.positions, KeyOf(call));
    if latest.Some? {
      assert Unmarked(t.positions[latest.value]) == Unmarked(t'.positions[latest.value]);
    }
    var open := FindOpen(t.positions, KeyOf(call));
    if open.Some? {
      assert Unmarked(t.positions[open.value]) == Unmarked(t'.positions[open.value]);
    }
  }

  lemma EvaluationConcernsItsKey(settings: Settings, w: World, call: Call, at: int)
    ensures ConcernsOnly(w.tables.positions, EvaluationChange(settings, w, call, at), KeyOf(call))
  {
    if call.frame != [] {
      var open := FindOpen(w.tables.positions, KeyOf(call));
      RecalculationRemarks(w.tables, map[call.symbol := call.frame[|call.frame| - 1].close]);
      if open.Some? {
        var marked := MarkAtLatest(w, call);
        assert Unmarked(w.tables.positions[open.value]) == Unmarked(marked.tables.positions[open.value]);
      }
    }
  }

  /** Executing one candidate leaves the preview of every candidate with another key as it was. */
  lemma OtherPreviewsUnchanged(settings: Settings, w: World, call: Call, at: int, other: Call)
    requires KeyOf(call) != KeyOf(other)
    ensures PreviewCandidate(settings, Evaluate(settings, w, call, at).0.tables, other) ==
            PreviewCandidate(settings, w.tables, other)
  {
    var t, t' := w.tables, Evaluate(settings, w, call, at).0.tables;
    OtherKeysUnchanged(settings, w, call, at, KeyOf(other));
    PreviewReadsOnly(settings, t, t', other);
  }

  /** An evaluation leaves the orders and the positions of every other key alone, marks aside. */
  lemma OtherKeysUnchanged(settings: Settings, w: World, call: Call, at: int, other: Key)
    requires KeyOf(call) != other
    ensures var t, t' := w.tables, Evaluate(settings, w, call, at).0.tables;
            && LatestOrderAt(t.orders, other) == LatestOrderAt(t'.orders, other)
            && FindOpen(t.positions, other) == FindOpen(t'.positions, other)
            && LatestClosed(t.positions, other) == LatestClosed(t'.positions, other)
            && |t.positions| <= |t'.positions|
            && forall i :: 0 <= i < |t.positions| && t.positions[i].key == other ==>
                 Unmarked(t.positions[i]) == Unmarked(t'.positions[i])
  {
    hide Evaluate, EvaluationChange, FindOpen, LatestClosed, LatestOrderAt, KeyOf;
    var t, t' := w.tables, Evaluate(settings, w, call, at).0.tables;
    var change := EvaluationChange(settings, w, call, at);
    EvaluationEvolves(settings, w, call, at);
    EvaluationConcernsItsKey(settings, w, call, at);
    QueriesElsewhere(t.positions, change, KeyOf(call), other);
    QueriesIgnoreMarks(Changed(t.positions, change), t'.positions, other);
    OrdersElsewhere(t.orders, t'.orders, KeyOf(call), at, other);
  }
}
