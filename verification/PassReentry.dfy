/** A pass never enters again what was open when it began. */
module PassReentry {
  import opened Common
  import opened Config
  import opened Ledger
  import opened Execution
  import opened Evolution
  import opened PreviewLaws
  import opened Runs
  import opened Ranking
  import opened RankedPass
  import opened RankedPassLaws

  // ---------- Which key an open position is managed under ----------

  /** The key that a managed position is looked up under: its own exactly if its name contains '@'. */
  function LookupKey(key: Key): Key {
    var (strategy, timeframe) := ParseInstanceName(key.strategy);
    Key(strategy + "@" + timeframe, key.symbol, key.itype)
  }

  predicate IsRegistered(pass: Pass, key: Key) {
    ParseInstanceName(key.strategy).0 in pass.names
  }

  lemma LookupIsStable(key: Key)
    ensures ParseInstanceName(LookupKey(key).strategy) == ParseInstanceName(key.strategy)
  {
    var (strategy, timeframe) := ParseInstanceName(key.strategy);
    var name, n := strategy + "@" + timeframe, |strategy|;
    assert '@' !in timeframe;
    assert name[n] == '@' && name[n + 1..] == timeframe && name[..n] == strategy;
    LastAtIs(name, n);
  }

  /** Different keys that are looked up under the same one are looked up on the 15m timeframe, and one of
      their names has no '@'. */
  lemma CollidingLookups(a: Key, b: Key)
    requires a != b && LookupKey(a) == LookupKey(b)
    ensures ParseInstanceName(a.strategy) == ParseInstanceName(b.strategy)
    ensures ParseInstanceName(a.strategy).1 == M15.Name()
    ensures '@' !in a.strategy || '@' !in b.strategy
  {
    LookupIsStable(a);
    LookupIsStable(b);
    ParsedNameIsItself(a.strategy);
    ParsedNameIsItself(b.strategy);
  }

  lemma ManagedCall(pass: Pass, key: Key, index: nat, timeframe: Timeframe)
    requires TimeframeNamed(ParseInstanceName(key.strategy).1) == Some(timeframe)
    ensures KeyOf(CallFor(pass, Managing(index), ParseInstanceName(key.strategy).0, key.symbol, timeframe, key.itype))
            == LookupKey(key)
  {
    hide ParseInstanceName;
  }

  /** Managing such a position ends the pass: its strategy is registered, but its timeframe is unknown. */
  predicate EndsPass(pass: Pass, key: Key) {
    IsRegistered(pass, key) && TimeframeNamed(ParseInstanceName(key.strategy).1).None?
  }

  /** Position `j` is managed, under the key that position `i` was managed under, and the cooldown of that
      key has run out since. */
  ghost predicate LookedUpLate(pass: Pass, keys: seq<Key>, i: nat, j: nat) {
    && i < j < |keys| && LookupKey(keys[i]) == LookupKey(keys[j]) && IsRegistered(pass, keys[j])
    && (forall k :: 0 <= k < j ==> !EndsPass(pass, keys[k]))
    && pass.clock(Managing(j)).now >= pass.clock(Managing(i)).at + CooldownLength(pass.settings, M15)
  }

  /** A position that is looked up under the key of one that was managed before it comes up within the
      cooldown of that key. It holds whenever every name contains '@', and whenever the positions are
      managed within 15 minutes. */
  ghost predicate LookedUpInTime(pass: Pass, keys: seq<Key>) {
    forall i: nat, j: nat :: !LookedUpLate(pass, keys, i, j)
  }

  /** It holds when all names of registered strategies contain '@'. */
  lemma ResolvedNamesAreInTime(pass: Pass, keys: seq<Key>)
    requires Distinct(keys) && forall key :: key in keys && IsRegistered(pass, key) ==> '@' in key.strategy
    ensures LookedUpInTime(pass, keys)
  {
    hide LookupKey, ParseInstanceName, CooldownLength;
    forall i: nat, j: nat
      ensures !LookedUpLate(pass, keys, i, j)
    {
      if LookedUpLate(pass, keys, i, j) {
        CollidingLookups(keys[i], keys[j]);
        assert false;
      }
    }
  }

  /** It holds when the last open position is managed within the cooldown of the start. */
  lemma ShortPassesAreInTime(pass: Pass, keys: seq<Key>, start: int)
    requires Ticking(pass.clock, start)
    requires forall i :: 0 <= i < |keys| ==> pass.clock(Managing(i)).now < start + CooldownLength(pass.settings, M15)
    ensures LookedUpInTime(pass, keys)
  {
    hide CooldownLength, LookupKey;
    forall i: nat, j: nat
      ensures !LookedUpLate(pass, keys, i, j)
    {
      assert pass.clock(Managing(i)).at >= start;
    }
  }

  // ---------- What becomes of a key that was open ----------

  /** The last row of `key` is row `l`, one of the first `count`: it is still open, or it was closed by
      one of the first `managed` evaluations, and not by hand. */
  ghost predicate HeldAt(pass: Pass, keys: seq<Key>, managed: nat, positions: seq<PositionRow>, count: nat, key: Key, l: nat)
    requires managed <= |keys|
  {
    && l < count <= |positions|
    && positions[l].key == key
    && (forall m :: l < m < |positions| ==> positions[m].key != key)
    && (positions[l].status == Open
        || (&& positions[l].exitReason != Some(ManualExit)
            && exists j :: 0 <= j < managed && LookupKey(keys[j]) == key
                           && positions[l].closedAt == Some(pass.clock(Managing(j)).at)))
  }

  ghost predicate Held(pass: Pass, keys: seq<Key>, managed: nat, positions: seq<PositionRow>, count: nat, key: Key)
    requires managed <= |keys|
  {
    exists l: nat :: HeldAt(pass, keys, managed, positions, count, key, l)
  }

  /** The last row of a key decides: if it is open it is the one that is found, and if it is closed it is
      the one that was closed last. */
  lemma LastRowDecides(positions: seq<PositionRow>, clock: int, key: Key, l: nat)
    requires Timed(positions, clock) && OneAtATime(positions)
    requires l < |positions| && positions[l].key == key && forall m :: l < m < |positions| ==> positions[m].key != key
    ensures positions[l].status == Open ==> FindOpen(positions, key) == Some(l)
    ensures positions[l].status == Closed ==> FindOpen(positions, key) == None && LatestClosed(positions, key) == Some(l)
  {
    hide FindOpen, LatestClosed;
    assert forall i :: 0 <= i < l && positions[i].key == key ==> positions[i].status == Closed;
    if positions[l].status == Closed {
      assert IsClosedOf(positions[l], key);
    }
  }

  /** An evaluation of another key leaves a held key held. */
  lemma ElsewhereKeepsHeld(pass: Pass, keys: seq<Key>, i: nat, w: World, call: Call, at: int, count: nat, key: Key, l: nat)
    requires i < |keys| && KeyOf(call) != key
    requires HeldAt(pass, keys, i, w.tables.positions, count, key, l)
    ensures HeldAt(pass, keys, i + 1, Evaluate(pass.settings, w, call, at).0.tables.positions, count, key, l)
  {
    hide Evaluate, LookupKey, KeyOf;
    var before, after := w.tables.positions, Evaluate(pass.settings, w, call, at).0.tables.positions;
    OtherKeysUnchanged(pass.settings, w, call, at, key);
    EvaluationOpensOnlyItsKey(pass.settings, w, call, at);
    assert Unmarked(before[l]) == Unmarked(after[l]);
  }

  /** The same rows by their keys, where row `l` is as it was or was closed at `at`, and not by hand. */
  ghost predicate OnlyCloses(before: seq<PositionRow>, after: seq<PositionRow>, l: nat, at: int) {
    && l < |after| == |before|
    && (forall m :: 0 <= m < |after| ==> after[m].key == before[m].key)
    && var p, q := before[l], after[l];
       || (q.status == p.status && q.closedAt == p.closedAt && q.exitReason == p.exitReason)
       || (q.closedAt == Some(at) && q.exitReason != Some(ManualExit))
  }

  /** Unless the last row is closed by it, with a reason of its own, an evaluation that may not open
      anything leaves the last row as it is. */
  lemma EvaluationOfLastRow(settings: Settings, w: World, call: Call, at: int, clock: int, l: nat)
    requires Timed(w.tables.positions, clock) && OneAtATime(w.tables.positions)
    requires l < |w.tables.positions| && w.tables.positions[l].key == KeyOf(call)
    requires forall m :: l < m < |w.tables.positions| ==> w.tables.positions[m].key != KeyOf(call)
    requires w.tables.positions[l].status == Closed ==> CoolingDown(settings, w.tables.positions, call)
    ensures OnlyCloses(w.tables.positions, Evaluate(settings, w, call, at).0.tables.positions, l, at)
  {
    hide Evaluate, EvaluationChange, KeyOf, FindOpen, LatestClosed, CoolingDown;
    var positions, change := w.tables.positions, EvaluationChange(settings, w, call, at);
    LastRowDecides(positions, clock, KeyOf(call), l);
    ChangeOfLastRow(settings, w, call, at, l);
    EvaluationEvolves(settings, w, call, at);
    RemarkedIsSameShape(Changed(positions, change), Evaluate(settings, w, call, at).0.tables.positions);
  }

  lemma ChangeOfLastRow(settings: Settings, w: World, call: Call, at: int, l: nat)
    requires l < |w.tables.positions|
    requires FindOpen(w.tables.positions, KeyOf(call)) == Some(l)
             || (FindOpen(w.tables.positions, KeyOf(call)).None? && CoolingDown(settings, w.tables.positions, call))
    ensures var change := EvaluationChange(settings, w, call, at);
            !change.Opened? && (change.Reduced? ==> change.id == l && change.reason != ManualExit)
  {
    hide EntryChange, Recalculate, CoolingDown, SelectedSignalRow, BarAlreadyProcessed;
  }

  /** As long as the pass goes on, no position has ended it. */
  lemma {:induction false} NothingHasEnded(pass: Pass, s: Progress, keys: seq<Key>)
    requires !ManageAll(pass, s, keys).stopped
    ensures forall k :: 0 <= k < |keys| ==> !EndsPass(pass, keys[k])
  {
    hide CallFor, Evaluate, ParseInstanceName, TimeframeNamed;
    if keys != [] {
      NothingHasEnded(pass, s, keys[..|keys| - 1]);
    }
  }

  /** The evaluation of an open position leaves every held key held. */
  lemma ManageOneKeepsHeld(pass: Pass, start: int, keys: seq<Key>, i: nat, s: Progress, count: nat, key: Key)
    requires Ticking(pass.clock, start) && i < |keys| && LookedUpInTime(pass, keys) && Distinct(keys)
    requires !s.stopped ==> forall k :: 0 <= k < i ==> !EndsPass(pass, keys[k])
    requires SafeBefore(pass, s.world.tables.positions, Managing(i))
    requires Held(pass, keys, i, s.world.tables.positions, count, key)
    ensures Held(pass, keys, i + 1, ManageOne(pass, s, keys[i], i).world.tables.positions, count, key)
  {
    var positions := s.world.tables.positions;
    var l: nat :| HeldAt(pass, keys, i, positions, count, key, l);
    var (strategy, name) := ParseInstanceName(keys[i].strategy);
    if s.stopped || strategy !in pass.names || TimeframeNamed(name).None? {
      assert HeldAt(pass, keys, i + 1, positions, count, key, l);
    } else {
      var timeframe := TimeframeNamed(name).value;
      var call := CallFor(pass, Managing(i), strategy, keys[i].symbol, timeframe, keys[i].itype);
      var at := pass.clock(Managing(i)).at;
      ManagedCall(pass, keys[i], i, timeframe);
      if LookupKey(keys[i]) != key {
        ElsewhereKeepsHeld(pass, keys, i, s.world, call, at, count, key, l);
      } else {
        LookupKeepsHeld(pass, keys, i, s.world, call, count, key, l);
      }
      hide HeldAt, LookupKey, Evaluate, CallFor, ParseInstanceName;
    }
  }

  /** The same for the key that the position is looked up under. */
  lemma LookupKeepsHeld(pass: Pass, keys: seq<Key>, i: nat, w: World, call: Call, count: nat, key: Key, l: nat)
    requires i < |keys| && LookedUpInTime(pass, keys) && Distinct(keys) && IsRegistered(pass, keys[i])
    requires forall k :: 0 <= k < i ==> !EndsPass(pass, keys[k])
    requires LookupKey(keys[i]) == key == KeyOf(call) && call.now == pass.clock(Managing(i)).now
    requires ParseInstanceName(keys[i].strategy).1 == call.timeframe.Name()
    requires SafeBefore(pass, w.tables.positions, Managing(i))
    requires HeldAt(pass, keys, i, w.tables.positions, count, key, l)
    ensures HeldAt(pass, keys, i + 1, Evaluate(pass.settings, w, call, pass.clock(Managing(i)).at).0.tables.positions, count, key, l)
  {
    hide Evaluate, LookupKey, KeyOf, ParseInstanceName, StopLossSpaced, CountOpen, Timeframe.Name;
    var positions := w.tables.positions;
    var clock :| clock <= pass.clock(Managing(i)).now && Safe(pass.settings, positions, clock);
    if positions[l].status == Closed {
      var j :| 0 <= j < i && LookupKey(keys[j]) == key && positions[l].closedAt == Some(pass.clock(Managing(j)).at);
      CollidingLookups(keys[i], keys[j]);
      assert !LookedUpLate(pass, keys, j, i);
      NamesAreDistinct(call.timeframe, M15);
      LastRowDecides(positions, clock, key, l);
      assert CoolingDown(pass.settings, positions, call);
    }
    EvaluationOfLastRow(pass.settings, w, call, pass.clock(Managing(i)).at, clock, l);
  }

  lemma {:induction false} ManagementKeepsHeld(pass: Pass, start: int, w: World, keys: seq<Key>, i: nat, key: Key)
    requires Ticking(pass.clock, start) && Safe(pass.settings, w.tables.positions, start)
    requires LookedUpInTime(pass, keys) && Distinct(keys) && i <= |keys|
    requires Held(pass, keys, 0, w.tables.positions, |w.tables.positions|, key)
    ensures Held(pass, keys, i, ManageAll(pass, Progress(w, false), keys[..i]).world.tables.positions, |w.tables.positions|, key)
  {
    hide Held, Safe, Ticking, LookedUpInTime, ManageOne;
    if i > 0 {
      var s := ManageAll(pass, Progress(w, false), keys[..i - 1]);
      assert keys[..i][..i - 1] == keys[..i - 1];
      ManagementKeepsHeld(pass, start, w, keys, i - 1, key);
      ManagementIsSafe(pass, start, w, keys[..i - 1], Managing(i - 1));
      if !s.stopped {
        NothingHasEnded(pass, Progress(w, false), keys[..i - 1]);
        assert forall k :: 0 <= k < i - 1 ==> keys[..i - 1][k] == keys[k];
      }
      ManageOneKeepsHeld(pass, start, keys, i - 1, s, |w.tables.positions|, key);
    }
  }

  // ---------- The pass ----------

  /** Rows that are added have the key of an attempted candidate; the others keep theirs. */
  lemma {:induction false} AttemptsOpenOnlyChosen(pass: Pass, s: Progress, chosen: seq<Candidate>)
    ensures var before, after := s.world.tables.positions, AttemptAll(pass, s, chosen).world.tables.positions;
            && |before| <= |after|
            && (forall i :: 0 <= i < |before| ==> after[i].key == before[i].key)
            && forall i :: |before| <= i < |after| ==>
                 exists k :: 0 <= k < |chosen| && after[i].key == KeyFor(pass, chosen[k])
  {
    hide Attempt, KeyFor;
    if chosen != [] {
      var n := |chosen| - 1;
      AttemptsOpenOnlyChosen(pass, s, chosen[..n]);
      AttemptOpensOnlyItsKey(pass, AttemptAll(pass, s, chosen[..n]), chosen[n], n);
      var middle, after := AttemptAll(pass, s, chosen[..n]).world.tables.positions, AttemptAll(pass, s, chosen).world.tables.positions;
      forall i | |s.world.tables.positions| <= i < |after|
        ensures exists k :: 0 <= k < |chosen| && after[i].key == KeyFor(pass, chosen[k])
      {
        if i < |middle| {
          var k :| 0 <= k < n && middle[i].key == KeyFor(pass, chosen[..n][k]);
          assert after[i].key == KeyFor(pass, chosen[k]);
        } else {
          assert after[i].key == KeyFor(pass, chosen[n]);
        }
      }
    }
  }

  lemma AttemptOpensOnlyItsKey(pass: Pass, s: Progress, c: Candidate, index: nat)
    ensures var before, after := s.world.tables.positions, Attempt(pass, s, c, index).world.tables.positions;
            && |before| <= |after|
            && (forall i :: 0 <= i < |before| ==> after[i].key == before[i].key)
            && (forall i :: |before| <= i < |after| ==> after[i].key == KeyFor(pass, c))
  {
    hide CallFor, Evaluate;
    KeysOfCalls(pass, c, index);
    EvaluationOpensOnlyItsKey(pass.settings, s.world, AttemptCall(pass, c, index), pass.clock(Attempting(index)).at);
  }

  lemma EvaluationOpensOnlyItsKey(settings: Settings, w: World, call: Call, at: int)
    ensures var before, after := w.tables.positions, Evaluate(settings, w, call, at).0.tables.positions;
            && |before| <= |after|
            && (forall i :: 0 <= i < |before| ==> after[i].key == before[i].key)
            && (forall i :: |before| <= i < |after| ==> after[i].key == KeyOf(call))
  {
    hide Evaluate, EvaluationChange, KeyOf, Opening;
    EvaluationEvolves(settings, w, call, at);
    EvaluationConcernsItsKey(settings, w, call, at);
    var change := EvaluationChange(settings, w, call, at);
    RemarkedIsSameShape(Changed(w.tables.positions, change), Evaluate(settings, w, call, at).0.tables.positions);
  }

  /** Open rows of one table have different keys. */
  lemma ManagedKeysAreDistinct(positions: seq<PositionRow>, clock: int)
    requires Timed(positions, clock) && OneAtATime(positions)
    ensures Distinct(ManagedKeys(positions))
  {
    var ids, keys := OpenIds(positions), ManagedKeys(positions);
    hide OpenIds;
    forall j, k | 0 <= j < k < |keys|
      ensures keys[j] != keys[k]
    {
      assert ids[j] < ids[k] && positions[ids[j]].status == Open;
    }
  }

  /** An open row is the last one of its key. */
  lemma OpenKeysAreHeld(pass: Pass, keys: seq<Key>, positions: seq<PositionRow>, clock: int, key: Key)
    requires Timed(positions, clock) && OneAtATime(positions) && key in OpenKeys(positions)
    ensures Held(pass, keys, 0, positions, |positions|, key)
  {
    var p :| p in positions && p.status == Open && p.key == key;
    var l :| 0 <= l < |positions| && positions[l] == p;
    assert HeldAt(pass, keys, 0, positions, |positions|, key, l);
  }

  /** A pass never enters a key that was open when it began, not even when the position of that key was
      closed during the pass, as long as no position is looked up under the key of another one later
      than the cooldown of that key. */
  lemma OpenKeysAreNotReentered(pass: Pass, w: World, start: int)
    requires Ticking(pass.clock, start) && Safe(pass.settings, w.tables.positions, start)
    requires LookedUpInTime(pass, ManagedKeys(w.tables.positions))
    requires Distinct(pass.names) && Distinct(pass.symbols) && Distinct(pass.timeframes)
    ensures var before, after := w.tables.positions, RunPass(pass, w).world.tables.positions;
            && |before| <= |after|
            && forall i :: |before| <= i < |after| ==> after[i].key !in OpenKeys(before)
  {
    hide ManageAll, AttemptAll, Chosen, OpenKeys, ManagedKeys, Ticking, Safe, LookedUpInTime, Attemptable, KeyFor, FreeSlots;
    var before := w.tables.positions;
    var managed := ManageAll(pass, Progress(w, false), ManagedKeys(before));
    ManagementAddsNoOpenKey(pass, w, start);
    ChoiceIsAttemptable(pass, managed.world.tables, OpenKeys(before));
    AttemptsOpenOnlyChosen(pass, managed, Chosen(pass, managed.world.tables, OpenKeys(before)));
  }

  lemma ManagementAddsNoOpenKey(pass: Pass, w: World, start: int)
    requires Ticking(pass.clock, start) && Safe(pass.settings, w.tables.positions, start)
    requires LookedUpInTime(pass, ManagedKeys(w.tables.positions))
    ensures var before, after := w.tables.positions, ManageAll(pass, Progress(w, false), ManagedKeys(w.tables.positions)).world.tables.positions;
            && |before| <= |after|
            && forall i :: |before| <= i < |after| ==> after[i].key !in OpenKeys(before)
  {
    hide *;
    var before, keys := w.tables.positions, ManagedKeys(w.tables.positions);
    var after := ManageAll(pass, Progress(w, false), keys).world.tables.positions;
    ManagementOnlyAdds(pass, w, keys);
    forall i | |before| <= i < |after|
      ensures after[i].key !in OpenKeys(before)
    {
      if after[i].key in OpenKeys(before) {
        HeldKeysAreNotAdded(pass, w, start, after[i].key);
        assert false;
      }
    }
  }

  lemma HeldKeysAreNotAdded(pass: Pass, w: World, start: int, key: Key)
    requires Ticking(pass.clock, start) && Safe(pass.settings, w.tables.positions, start)
    requires LookedUpInTime(pass, ManagedKeys(w.tables.positions)) && key in OpenKeys(w.tables.positions)
    ensures var after := ManageAll(pass, Progress(w, false), ManagedKeys(w.tables.positions)).world.tables.positions;
            forall i :: |w.tables.positions| <= i < |after| ==> after[i].key != key
  {
    hide ManageAll, OpenKeys, ManagedKeys, Ticking, LookedUpInTime, LookupKey, StopLossSpaced, CountOpen;
    var positions, keys := w.tables.positions, ManagedKeys(w.tables.positions);
    ManagedKeysAreDistinct(positions, start);
    OpenKeysAreHeld(pass, keys, positions, start, key);
    ManagementKeepsHeld(pass, start, w, keys, |keys|, key);
    assert keys[..|keys|] == keys;
  }

  lemma {:induction false} ManagementOnlyAdds(pass: Pass, w: World, keys: seq<Key>)
    ensures |w.tables.positions| <= |ManageAll(pass, Progress(w, false), keys).world.tables.positions|
  {
    hide CallFor, Evaluate, ParseInstanceName;
    if keys != [] {
      var n := |keys| - 1;
      ManagementOnlyAdds(pass, w, keys[..n]);
      var s := ManageAll(pass, Progress(w, false), keys[..n]);
      var (strategy, name) := ParseInstanceName(keys[n].strategy);
      if TimeframeNamed(name).Some? {
        EvaluationOpensOnlyItsKey(pass.settings, s.world,
          CallFor(pass, Managing(n), strategy, keys[n].symbol, TimeframeNamed(name).value, keys[n].itype),
          pass.clock(Managing(n)).at);
      }
    }
  }
}
