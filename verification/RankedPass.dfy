/** One pass of the signal worker: manage what is open, preview everything else, and enter the best
    candidates while slots last (app/workers/tasks.py:100-222). */
module RankedPass {
  import opened Common
  import opened Config
  import opened Strategy
  import opened Ledger
  import opened Execution
  import opened Ranking

  /** The calls of a pass. Each reads the clock and fetches its data anew. */
  datatype Moment =
    | Managing(index: nat)
    | Previewing(strategy: string, symbol: string, timeframe: Timeframe)
    | Attempting(index: nat)

  /** What the data services and the registry answer in a call for a strategy in a market. */
  datatype Answer = Answer(params: StrategyParams, frame: seq<SignalRow>, env: Env)

  type Feed = (Moment, string, string, Timeframe, InstrumentType) -> Answer

  /** The clock as a call begins, and the time that the rows it writes carry. */
  datatype Reading = Reading(now: int, at: int)

  /** What a pass works with. `names` are the registered strategies, `enabled` those switched on. */
  datatype Pass = Pass(
    settings: Settings,
    feed: Feed,
    names: seq<string>,
    enabled: set<string>,
    symbols: seq<string>,
    timeframes: seq<Timeframe>,
    itype: InstrumentType,
    clock: Moment -> Reading)

  function CallFor(pass: Pass, moment: Moment, strategy: string, symbol: string, timeframe: Timeframe, itype: InstrumentType): Call {
    var answer := pass.feed(moment, strategy, symbol, timeframe, itype);
    Call(strategy, answer.params, symbol, timeframe, itype, answer.frame, answer.env, None, pass.clock(moment).now)
  }

  /** What is open is managed in order, then the previews are made, then the attempts in order. */
  predicate Precedes(a: Moment, b: Moment) {
    match (a, b)
    case (Managing(i), Managing(j)) => i < j
    case (Attempting(i), Attempting(j)) => i < j
    case (Managing(_), _) => true
    case (Previewing(_, _, _), Attempting(_)) => true
    case _ => false
  }

  /** The clock of a pass never goes back: a call begins no earlier than the calls before it ended. */
  ghost predicate Ticking(clock: Moment -> Reading, start: int) {
    && (forall m :: start <= clock(m).now <= clock(m).at)
    && (forall a, b :: Precedes(a, b) ==> clock(a).at <= clock(b).now)
  }

  // ---------- Names of strategy instances ----------

  /** The last '@' of a name. */
  function LastAt(name: string): (r: Option<nat>)
    ensures r.Some? ==> r.value < |name| && name[r.value] == '@' && '@' !in name[r.value + 1..]
    ensures r.None? ==> '@' !in name
  {
    if name == "" then None
    else
      var n := |name| - 1;
      if name[n] == '@' then Some(n)
      else
        assert name == name[..n] + [name[n]];
        var before := LastAt(name[..n]);
        assert before.Some? ==> name[before.value + 1..] == name[..n][before.value + 1..] + [name[n]];
        before
  }

  /** The strategy and the timeframe of an instance name: without '@' the timeframe is "15m". */
  function ParseInstanceName(name: string): (string, string) {
    var cut := LastAt(name);
    if cut.None? then (name, "15m") else (name[..cut.value], name[cut.value + 1..])
  }

  function TimeframeNamed(name: string): (r: Option<Timeframe>)
    ensures r.Some? ==> r.value.Name() == name
  {
    if name == "1m" then Some(M1)
    else if name == "5m" then Some(M5)
    else if name == "15m" then Some(M15)
    else if name == "1h" then Some(H1)
    else if name == "4h" then Some(H4)
    else None
  }

  /** The last '@' is where nothing after it is one. */
  lemma LastAtIs(name: string, n: nat)
    requires n < |name| && name[n] == '@' && '@' !in name[n + 1..]
    ensures LastAt(name) == Some(n)
  {
    hide LastAt;
    assert '@' in name;
    var cut := LastAt(name).value;
    assert forall i :: n < i < |name| ==> name[i] == name[n + 1..][i - n - 1];
    assert forall i :: cut < i < |name| ==> name[i] == name[cut + 1..][i - cut - 1];
  }

  /** Parsing inverts the naming of instances; and a parsed name is looked up under itself exactly
      when it contains an '@'. */
  lemma ParsingInvertsNaming(strategy: string, timeframe: Timeframe)
    ensures ParseInstanceName(InstanceName(strategy, timeframe)) == (strategy, timeframe.Name())
  {
    var name, n := InstanceName(strategy, timeframe), |strategy|;
    assert '@' !in timeframe.Name();
    hide Timeframe.Name, LastAt;
    assert name[n] == '@' && name[n + 1..] == timeframe.Name() && name[..n] == strategy;
    LastAtIs(name, n);
  }

  lemma ParsedNameIsItself(name: string)
    ensures var (strategy, timeframe) := ParseInstanceName(name);
            strategy + "@" + timeframe == name <==> '@' in name
  {
    var cut := LastAt(name);
    if cut.Some? {
      assert name == name[..cut.value] + [name[cut.value]] + name[cut.value + 1..];
    } else {
      assert |name + "@" + "15m"| != |name|;
    }
  }

  // ---------- Managing what is open ----------

  /** The ids of the open positions. */
  function OpenIds(positions: seq<PositionRow>): (ids: seq<nat>)
    ensures forall k :: 0 <= k < |ids| ==> ids[k] < |positions| && positions[ids[k]].status == Open
    ensures forall j, k :: 0 <= j < k < |ids| ==> ids[j] < ids[k]
  {
    if positions == [] then []
    else
      var n := |positions| - 1;
      if positions[n].status == Open then OpenIds(positions[..n]) + [n] else OpenIds(positions[..n])
  }

  function OpenKeys(positions: seq<PositionRow>): set<Key> {
    set p | p in positions && p.status == Open :: p.key
  }

  /** A pass goes on, or an error that is not a risk check stops it. */
  datatype Progress = Progress(world: World, stopped: bool)

  function StopsPass(outcome: Outcome): bool {
    outcome.Raised? && !IsRiskCheck(outcome.error)
  }

  function ManageOne(pass: Pass, s: Progress, key: Key, index: nat): Progress {
    var (strategy, name) := ParseInstanceName(key.strategy);
    if s.stopped || strategy !in pass.names then s
    else
      var timeframe := TimeframeNamed(name);
      if timeframe.None? then s.(stopped := true)
      else
        var call := CallFor(pass, Managing(index), strategy, key.symbol, timeframe.value, key.itype);
        var (w, outcome) := Evaluate(pass.settings, s.world, call, pass.clock(Managing(index)).at);
        Progress(w, StopsPass(outcome))
  }

  function ManageAll(pass: Pass, s: Progress, keys: seq<Key>): Progress {
    if keys == [] then s
    else ManageOne(pass, ManageAll(pass, s, keys[..|keys| - 1]), keys[|keys| - 1], |keys| - 1)
  }

  /** The keys of the open positions, in the order in which they are managed. */
  function ManagedKeys(positions: seq<PositionRow>): seq<Key> {
    KeysAt(positions, OpenIds(positions))
  }

  function KeysAt(positions: seq<PositionRow>, ids: seq<nat>): (keys: seq<Key>)
    requires forall k :: 0 <= k < |ids| ==> ids[k] < |positions|
    ensures |keys| == |ids|
    ensures forall k :: 0 <= k < |ids| ==> keys[k] == positions[ids[k]].key
  {
    if ids == [] then [] else KeysAt(positions, ids[..|ids| - 1]) + [positions[ids[|ids| - 1]].key]
  }

  // ---------- Candidates ----------

  function PreviewCall(pass: Pass, strategy: string, symbol: string, timeframe: Timeframe): Call {
    CallFor(pass, Previewing(strategy, symbol, timeframe), strategy, symbol, timeframe, pass.itype)
  }

  function KeyFor(pass: Pass, c: Candidate): Key {
    Key(InstanceName(c.strategy, c.timeframe), c.symbol, pass.itype)
  }

  /** The candidate that a combination yields, if its key was not open and it previews as an entry. */
  function CandidateOf(pass: Pass, t: Tables, taken: set<Key>, strategy: string, symbol: string, timeframe: Timeframe)
    : seq<Candidate>
  {
    if Key(InstanceName(strategy, timeframe), symbol, pass.itype) in taken then []
    else
      match PreviewCandidate(pass.settings, t, PreviewCall(pass, strategy, symbol, timeframe))
      case PreviewEntry(_, confidence) => [Candidate(confidence, symbol, timeframe, strategy)]
      case _ => []
  }

  function OverTimeframes(pass: Pass, t: Tables, taken: set<Key>, strategy: string, symbol: string,
                          timeframes: seq<Timeframe>): seq<Candidate>
  {
    if timeframes == [] then []
    else OverTimeframes(pass, t, taken, strategy, symbol, timeframes[..|timeframes| - 1])
         + CandidateOf(pass, t, taken, strategy, symbol, timeframes[|timeframes| - 1])
  }

  function OverSymbols(pass: Pass, t: Tables, taken: set<Key>, strategy: string, symbols: seq<string>): seq<Candidate> {
    if symbols == [] then []
    else OverSymbols(pass, t, taken, strategy, symbols[..|symbols| - 1])
         + OverTimeframes(pass, t, taken, strategy, symbols[|symbols| - 1], pass.timeframes)
  }

  function OverStrategies(pass: Pass, t: Tables, taken: set<Key>, names: seq<string>): seq<Candidate> {
    if names == [] then []
    else
      var name := names[|names| - 1];
      OverStrategies(pass, t, taken, names[..|names| - 1])
      + (if name in pass.enabled then OverSymbols(pass, t, taken, name, pass.symbols) else [])
  }

  function Candidates(pass: Pass, t: Tables, taken: set<Key>): seq<Candidate> {
    OverStrategies(pass, t, taken, pass.names)
  }

  // ---------- Entering the best ----------

  function FreeSlots(settings: Settings, t: Tables): nat {
    if settings.maxConcurrentPositions >= CountOpen(t.positions)
    then settings.maxConcurrentPositions - CountOpen(t.positions) else 0
  }

  function AttemptCall(pass: Pass, c: Candidate, index: nat): Call {
    CallFor(pass, Attempting(index), c.strategy, c.symbol, c.timeframe, pass.itype)
  }

  function Attempt(pass: Pass, s: Progress, c: Candidate, index: nat): Progress {
    if s.stopped then s
    else
      var (w, outcome) := Evaluate(pass.settings, s.world, AttemptCall(pass, c, index), pass.clock(Attempting(index)).at);
      Progress(w, StopsPass(outcome))
  }

  function AttemptAll(pass: Pass, s: Progress, chosen: seq<Candidate>): Progress {
    if chosen == [] then s
    else Attempt(pass, AttemptAll(pass, s, chosen[..|chosen| - 1]), chosen[|chosen| - 1], |chosen| - 1)
  }

  function Chosen(pass: Pass, t: Tables, taken: set<Key>): seq<Candidate> {
    var ranked := RankEntryCandidates(Candidates(pass, t, taken));
    var free := FreeSlots(pass.settings, t);
    if free <= |ranked| then ranked[..free] else ranked
  }

  /** The pass: what is open is managed, then the first free slots of the ranking are attempted. */
  function RunPass(pass: Pass, w: World): Progress {
    var managed := ManageAll(pass, Progress(w, false), ManagedKeys(w.tables.positions));
    if managed.stopped then managed
    else AttemptAll(pass, managed, Chosen(pass, managed.world.tables, OpenKeys(w.tables.positions)))
  }
}
