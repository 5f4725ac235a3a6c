/**
 * Dashboard values under a version key (`core/kpi_cache.py`) in a cache that degrades to no cache
 * (`core/cache.py`): concurrent readers, builders, writers and bumps, one cache call per step.
 */
module KpiCache {
  import opened Wrappers
  import opened Sums

  type Time = nat

  // ---- the circuit breaker ------------------------------------------------------

  const CIRCUIT_OPEN: nat := 10_000

  class FailSoftCache {
    var openUntil: Time

    constructor ()
      ensures openUntil == 0
    {
      openUntil := 0;
    }

    /** One guarded call: skipped while the circuit is open, else tried; a failure opens the circuit. */
    method Guard(now: Time, reachable: bool) returns (tried: bool, served: bool)
      modifies this
      ensures tried == (old(openUntil) <= now) && served == (tried && reachable)
      ensures openUntil == AfterCall(old(openUntil), now, reachable)
    {
      if now < openUntil {
        return false, false;
      }
      if !reachable {
        openUntil := now + CIRCUIT_OPEN;
      }
      return true, reachable;
    }

    method CloseCircuit()
      modifies this
      ensures openUntil == 0
    {
      openUntil := 0;
    }
  }

  function AfterCall(openUntil: Time, now: Time, reachable: bool): Time {
    if openUntil <= now && !reachable then now + CIRCUIT_OPEN else openUntil
  }

  datatype CacheCall = CacheCall(at: Time, reachable: bool)

  function OpenUntil(calls: seq<CacheCall>): Time {
    if |calls| == 0 then 0
    else
      var last := calls[|calls| - 1];
      AfterCall(OpenUntil(calls[..|calls| - 1]), last.at, last.reachable)
  }

  /** The `i`-th call reached for Redis and timed out. */
  predicate TimesOut(calls: seq<CacheCall>, i: nat)
    requires i < |calls|
  {
    OpenUntil(calls[..i]) <= calls[i].at && !calls[i].reachable
  }

  ghost predicate InTimeOrder(calls: seq<CacheCall>) {
    forall i, j :: 0 <= i < j < |calls| ==> calls[i].at <= calls[j].at
  }

  lemma {:induction false} OpenSinceTimeout(calls: seq<CacheCall>, i: nat, n: nat)
    requires InTimeOrder(calls) && i < n <= |calls| && TimesOut(calls, i)
    ensures calls[i].at + CIRCUIT_OPEN <= OpenUntil(calls[..n])
  {
    assert calls[..n][..n - 1] == calls[..n - 1] && calls[..n][n - 1] == calls[n - 1];
    if i < n - 1 {
      OpenSinceTimeout(calls, i, n - 1);
    }
  }

  /** An unreachable Redis costs at most one socket timeout in every ten seconds, however many calls are made. */
  lemma OneTimeoutPerWindow(calls: seq<CacheCall>, i: nat, j: nat)
    requires InTimeOrder(calls) && i < j < |calls| && TimesOut(calls, i) && TimesOut(calls, j)
    ensures calls[i].at + CIRCUIT_OPEN <= calls[j].at
  {
    OpenSinceTimeout(calls, i, j);
  }

  lemma {:induction false} OpenSinceSomeTimeout(calls: seq<CacheCall>, n: nat) returns (i: nat)
    requires n <= |calls| && OpenUntil(calls[..n]) > 0
    ensures i < n && TimesOut(calls, i) && OpenUntil(calls[..n]) == calls[i].at + CIRCUIT_OPEN
  {
    assert calls[..n][..n - 1] == calls[..n - 1] && calls[..n][n - 1] == calls[n - 1];
    if TimesOut(calls, n - 1) {
      i := n - 1;
    } else {
      i := OpenSinceSomeTimeout(calls, n - 1);
    }
  }

  /** A call is skipped exactly when some call timed out less than ten seconds before it. */
  lemma SkippedOnlyAfterATimeout(calls: seq<CacheCall>, n: nat)
    requires InTimeOrder(calls) && n < |calls|
    ensures OpenUntil(calls[..n]) > calls[n].at
       <==> exists i :: 0 <= i < n && TimesOut(calls, i) && calls[n].at < calls[i].at + 10_000
  {
    if OpenUntil(calls[..n]) > calls[n].at {
      var i := OpenSinceSomeTimeout(calls, n);
    }
    if i :| 0 <= i < n && TimesOut(calls, i) && calls[n].at < calls[i].at + 10_000 {
      OpenSinceTimeout(calls, i, n);
    }
  }

  // ---- version keys -------------------------------------------------------------

  /** What a builder computed: the number of writes it saw, the event it ran at, and the time. */
  datatype Value = Value(writes: nat, builtAt: nat, built: Time)

  datatype Entry = Entry(value: Value, stored: Time, ttl: nat)

  datatype Pc =
    | Versioning
    | Resetting
    | Looking(version: nat)
    | Building(version: nat)
    | Storing(version: nat, value: Value)
    | Hit(entry: Entry, at: Time)
    | Computed(value: Value)

  /** `bumpBefore` and `writesBefore` record the last bump completed before the call began, and the writes it covered. */
  datatype Reader = Reader(name: string, ttl: nat, pc: Pc, bumpBefore: nat, writesBefore: nat)

  /**
   * `event` numbers the steps. `lastBump` is the event of the last completed bump and `covered` the
   * newest write whose bump completed; `since` and `floor` record both for each version when it
   * became current. `trouble` is set by every loss of the version key and every failed version call.
   */
  datatype State = State(
    now: Time,
    event: nat,
    version: Option<nat>,
    entries: map<(nat, string), Entry>,
    writes: nat,
    lastBump: nat,
    covered: nat,
    since: map<nat, nat>,
    floor: map<nat, nat>,
    readers: seq<Reader>,
    trouble: bool)

  datatype Step =
    | Tick(elapsed: nat)
    | Write
    | Bump(write: nat, works: bool, resets: bool)
    | Call(name: string, ttl: nat)
    | GetVersion(r: nat, works: bool)
    | ResetVersion(r: nat, works: bool)
    | Lookup(r: nat, works: bool)
    | Build(r: nat)
    | Store(r: nat, works: bool)
    | EvictVersion
    | Evict(key: (nat, string))

  predicate OfReader(step: Step) {
    step.GetVersion? || step.ResetVersion? || step.Lookup? || step.Build? || step.Store?
  }

  /** A bump belongs to a write that is already visible. */
  predicate Enabled(s: State, step: Step) {
    && (OfReader(step) ==> step.r < |s.readers|)
    && match step
       case Bump(write, _, _) => write <= s.writes
       case GetVersion(r, _) => s.readers[r].pc.Versioning?
       case ResetVersion(r, _) => s.readers[r].pc.Resetting?
       case Lookup(r, _) => s.readers[r].pc.Looking?
       case Build(r) => s.readers[r].pc.Building?
       case Store(r, _) => s.readers[r].pc.Storing?
       case _ => true
  }

  predicate Fresh(e: Entry, now: Time) {
    now < e.stored + e.ttl
  }

  function Move(s: State, r: nat, pc: Pc): State
    requires r < |s.readers|
  {
    s.(readers := s.readers[r := s.readers[r].(pc := pc)])
  }

  function Act(s: State, step: Step): State
    requires Enabled(s, step)
  {
    match step
    case Tick(elapsed) => s.(now := s.now + elapsed)
    case Write => s.(writes := s.writes + 1)
    case Bump(write, works, resets) =>
      if works && s.version.Some? then
        var v := s.version.value + 1;
        var covered := if write > s.covered then write else s.covered;
        s.(version := Some(v), lastBump := s.event, covered := covered,
           since := s.since[v := s.event], floor := s.floor[v := covered])
      else
        // The key is missing or the call failed: it is set to one, if that call works.
        s.(version := if resets then Some(1) else s.version, trouble := true)
    case Call(name, ttl) => s.(readers := s.readers + [Reader(name, ttl, Versioning, s.lastBump, s.covered)])
    case GetVersion(r, works) =>
      if works && s.version.Some? then Move(s, r, Looking(s.version.value))
      else Move(s.(trouble := true), r, Resetting)
    case ResetVersion(r, works) => Move(s.(version := if works then Some(1) else s.version), r, Looking(1))
    case Lookup(r, works) =>
      var key := (s.readers[r].pc.version, s.readers[r].name);
      if works && key in s.entries && Fresh(s.entries[key], s.now) then Move(s, r, Hit(s.entries[key], s.now))
      else Move(s, r, Building(key.0))
    case Build(r) => Move(s, r, Storing(s.readers[r].pc.version, Value(s.writes, s.event, s.now)))
    case Store(r, works) =>
      var reader := s.readers[r];
      var entry := Entry(reader.pc.value, s.now, reader.ttl);
      Move(if works then s.(entries := s.entries[(reader.pc.version, reader.name) := entry]) else s, r, Computed(reader.pc.value))
    case EvictVersion => s.(version := None, trouble := true)
    case Evict(key) => s.(entries := s.entries - {key})
  }

  function Do(s: State, step: Step): State
    requires Enabled(s, step)
  {
    Act(s, step).(event := s.event + 1)
  }

  /** The version key exists from the start, and nothing else. */
  predicate Init(s: State) {
    && s.event == 1 && s.version == Some(1) && s.entries == map[] && s.writes == 0 && s.lastBump == 0 && s.covered == 0
    && s.since == map[1 := 0] && s.floor == map[1 := 0] && s.readers == [] && !s.trouble
  }

  ghost predicate Run(states: seq<State>, steps: seq<Step>) {
    && |states| == |steps| + 1 && Init(states[0])
    && (forall n :: 0 <= n < |steps| ==> Enabled(states[n], steps[n]) && states[n + 1] == Do(states[n], steps[n]))
  }

  /** The value a finished call returned. */
  function Returned(pc: Pc): Option<Value> {
    match pc
    case Hit(e, _) => Some(e.value)
    case Computed(v) => Some(v)
    case _ => None
  }

  // ---- freshness while the version key is intact --------------------------------------

  /** A value stored, or about to be, under version `v` was built after `v` became current. */
  ghost predicate BuiltUnder(s: State, v: nat, value: Value) {
    v in s.since && v in s.floor && s.since[v] <= value.builtAt && s.floor[v] <= value.writes
  }

  ghost predicate VersionsSound(s: State) {
    && s.version.Some? && s.version.value in s.since && s.since.Keys == s.floor.Keys
    && s.since[s.version.value] == s.lastBump && s.floor[s.version.value] == s.covered
    && s.lastBump < s.event && s.covered <= s.writes
    && (forall v :: v in s.since ==> v <= s.version.value && s.since[v] <= s.lastBump && s.floor[v] <= s.covered)
  }

  /** A call never works under a version older than the last bump completed before it began. */
  ghost predicate ReaderSound(s: State, r: Reader) {
    && r.bumpBefore <= s.lastBump && r.writesBefore <= s.covered
    && match r.pc
       case Versioning => true
       case Resetting => false
       case Looking(v) => v in s.since && v in s.floor && r.bumpBefore <= s.since[v] && r.writesBefore <= s.floor[v]
       case Building(v) => v in s.since && v in s.floor && r.bumpBefore <= s.since[v] && r.writesBefore <= s.floor[v]
       case Storing(v, value) =>
         BuiltUnder(s, v, value) && r.bumpBefore <= s.since[v] && r.writesBefore <= s.floor[v]
       case Hit(e, _) => r.bumpBefore <= e.value.builtAt && r.writesBefore <= e.value.writes
       case Computed(value) => r.bumpBefore <= value.builtAt && r.writesBefore <= value.writes
  }

  ghost predicate Sound(s: State) {
    && VersionsSound(s)
    && (forall key :: key in s.entries ==> BuiltUnder(s, key.0, s.entries[key].value))
    && (forall r :: 0 <= r < |s.readers| ==> ReaderSound(s, s.readers[r]))
  }

  lemma BumpKeepsSound(s: State, write: nat, works: bool, resets: bool)
    requires Sound(s) && Enabled(s, Bump(write, works, resets)) && !Do(s, Bump(write, works, resets)).trouble
    ensures Sound(Do(s, Bump(write, works, resets)))
  {
    var s' := Do(s, Bump(write, works, resets));
    assert s.version.value + 1 !in s.since;
    forall v | v in s.since
      ensures v in s'.since && s'.since[v] == s.since[v] && s'.floor[v] == s.floor[v]
    {
    }
    forall r | 0 <= r < |s'.readers| ensures ReaderSound(s', s'.readers[r]) {
      assert ReaderSound(s, s.readers[r]);
    }
  }

  predicate SameVersions(s: State, s': State) {
    && s'.version == s.version && s'.since == s.since && s'.floor == s.floor
    && s'.lastBump == s.lastBump && s'.covered == s.covered && s'.writes == s.writes
  }

  lemma ReaderStepMovesOne(s: State, step: Step)
    requires Sound(s) && Enabled(s, step) && OfReader(step) && !Do(s, step).trouble
    ensures SameVersions(s, Do(s, step)) && Do(s, step).event == s.event + 1 && |Do(s, step).readers| == |s.readers|
    ensures forall r :: 0 <= r < |s.readers| && r != step.r ==> Do(s, step).readers[r] == s.readers[r]
  {
    assert ReaderSound(s, s.readers[step.r]);
  }

  lemma MovedReaderIsSound(s: State, step: Step)
    requires Sound(s) && Enabled(s, step) && OfReader(step) && !Do(s, step).trouble
    ensures step.r < |Do(s, step).readers| && ReaderSound(s, Do(s, step).readers[step.r])
  {
    assert ReaderSound(s, s.readers[step.r]);
  }

  lemma ReaderStepKeepsEntries(s: State, step: Step, key: (nat, string))
    requires Sound(s) && Enabled(s, step) && OfReader(step) && !Do(s, step).trouble && key in Do(s, step).entries
    ensures BuiltUnder(s, key.0, Do(s, step).entries[key].value)
  {
    assert ReaderSound(s, s.readers[step.r]);
  }

  /** A reader's own step leaves the versions alone, and its next position is sound. */
  lemma ReaderStepKeepsSound(s: State, step: Step)
    requires Sound(s) && Enabled(s, step) && OfReader(step) && !Do(s, step).trouble
    ensures Sound(Do(s, step))
  {
    var s' := Do(s, step);
    ReaderStepMovesOne(s, step);
    MovedReaderIsSound(s, step);
    forall r | 0 <= r < |s'.readers| ensures ReaderSound(s', s'.readers[r]) {
      assert r != step.r ==> ReaderSound(s, s.readers[r]);
    }
    forall key | key in s'.entries ensures BuiltUnder(s', key.0, s'.entries[key].value) {
      ReaderStepKeepsEntries(s, step, key);
    }
  }

  lemma StepKeepsSound(s: State, step: Step)
    requires Sound(s) && Enabled(s, step) && !Do(s, step).trouble
    ensures Sound(Do(s, step))
  {
    var s' := Do(s, step);
    if OfReader(step) {
      ReaderStepKeepsSound(s, step);
    } else if step.Bump? {
      BumpKeepsSound(s, step.write, step.works, step.resets);
    } else {
      forall r | 0 <= r < |s'.readers| ensures ReaderSound(s', s'.readers[r]) {
        assert r < |s.readers| ==> ReaderSound(s, s.readers[r]);
      }
    }
  }

  lemma TroubleStays(s: State, step: Step)
    requires Enabled(s, step) && s.trouble
    ensures Do(s, step).trouble
  {
  }

  lemma {:induction false} SoundThroughout(states: seq<State>, steps: seq<Step>, n: nat)
    requires Run(states, steps) && n < |states| && !states[n].trouble
    ensures Sound(states[n])
  {
    if n > 0 {
      var s, step := states[n - 1], steps[n - 1];
      if s.trouble {
        TroubleStays(s, step);
      } else {
        SoundThroughout(states, steps, n - 1);
        StepKeepsSound(s, step);
      }
    }
  }

  /**
   * While the version key has not been lost, a call returns a value its builder computed no earlier
   * than the last bump completed before the call began, and that includes every write bumped by then.
   */
  lemma ReturnedValueIsFresh(states: seq<State>, steps: seq<Step>, n: nat, r: nat)
    requires Run(states, steps) && n < |states| && !states[n].trouble
    requires r < |states[n].readers| && Returned(states[n].readers[r].pc).Some?
    ensures var reader := states[n].readers[r];
            && reader.bumpBefore <= Returned(reader.pc).value.builtAt
            && reader.writesBefore <= Returned(reader.pc).value.writes
  {
    SoundThroughout(states, steps, n);
    assert ReaderSound(states[n], states[n].readers[r]);
  }

  // ---- the bound that survives every loss ------------------------------------------------

  /** The build of a value is in the run: its event is a builder's step, at that time and with those writes. */
  ghost predicate BuildInRun(states: seq<State>, steps: seq<Step>, value: Value) {
    && 1 <= value.builtAt <= |steps| < |states| && steps[value.builtAt - 1].Build?
    && states[value.builtAt - 1].now == value.built && states[value.builtAt - 1].writes == value.writes
  }

  ghost predicate EntryInRun(states: seq<State>, steps: seq<Step>, e: Entry, now: Time) {
    BuildInRun(states, steps, e.value) && e.value.built <= e.stored <= now
  }

  ghost predicate PcInRun(states: seq<State>, steps: seq<Step>, pc: Pc, now: Time) {
    match pc
    case Storing(_, value) => BuildInRun(states, steps, value) && value.built <= now
    case Hit(e, at) => EntryInRun(states, steps, e, at) && at <= now && at < e.stored + e.ttl
    case Computed(value) => BuildInRun(states, steps, value) && value.built <= now
    case _ => true
  }

  ghost predicate EntriesInRun(states: seq<State>, steps: seq<Step>, entries: map<(nat, string), Entry>, now: Time) {
    forall key :: key in entries ==> EntryInRun(states, steps, entries[key], now)
  }

  ghost predicate ReadersInRun(states: seq<State>, steps: seq<Step>, readers: seq<Reader>, now: Time) {
    forall r :: 0 <= r < |readers| ==> PcInRun(states, steps, readers[r].pc, now)
  }

  /** Everything kept in state `s` was built in the run so far. */
  ghost predicate BuiltInRun(states: seq<State>, steps: seq<Step>, s: State) {
    EntriesInRun(states, steps, s.entries, s.now) && ReadersInRun(states, steps, s.readers, s.now)
  }

  ghost predicate Numbered(states: seq<State>) {
    && (forall n :: 0 <= n < |states| ==> states[n].event == n + 1)
    && (forall m, n :: 0 <= m <= n < |states| ==> states[m].now <= states[n].now && states[m].writes <= states[n].writes)
  }

  lemma StepCounts(s: State, step: Step)
    requires Enabled(s, step)
    ensures Do(s, step).event == s.event + 1 && s.now <= Do(s, step).now && s.writes <= Do(s, step).writes
  {
  }

  lemma {:induction false} RunIsNumbered(states: seq<State>, steps: seq<Step>)
    requires Run(states, steps)
    ensures Numbered(states)
    decreases |steps|
  {
    if |steps| > 0 {
      var k := |steps| - 1;
      RunIsNumbered(states[..|steps|], steps[..k]);
      StepCounts(states[k], steps[k]);
      forall m, n | 0 <= m <= n < |states|
        ensures states[m].now <= states[n].now && states[m].writes <= states[n].writes && states[m].event == m + 1
      {
        assert n < |steps| ==> states[..|steps|][n] == states[n];
        assert m < |steps| ==> states[..|steps|][m] == states[m];
        assert states[..|steps|][k] == states[k] && (m < |steps| ==> states[m].now <= states[k].now && states[m].writes <= states[k].writes);
      }
    }
  }

  lemma ReaderMovesInRun(states: seq<State>, steps: seq<Step>, s: State, step: Step)
    requires Enabled(s, step) && OfReader(step) && BuiltInRun(states, steps, s)
    requires step.Build? ==> BuildInRun(states, steps, Value(s.writes, s.event, s.now))
    ensures step.r < |Do(s, step).readers| && PcInRun(states, steps, Do(s, step).readers[step.r].pc, s.now)
  {
    assert PcInRun(states, steps, s.readers[step.r].pc, s.now);
  }

  lemma StoreInRun(states: seq<State>, steps: seq<Step>, s: State, step: Step)
    requires Enabled(s, step) && step.Store? && BuiltInRun(states, steps, s)
    ensures EntriesInRun(states, steps, Do(s, step).entries, s.now)
  {
    assert PcInRun(states, steps, s.readers[step.r].pc, s.now);
  }

  /** A reader's step moves that reader, and takes no time. */
  lemma OneReaderMoves(s: State, step: Step)
    requires Enabled(s, step) && OfReader(step)
    ensures Do(s, step).now == s.now && |Do(s, step).readers| == |s.readers|
    ensures Do(s, step).readers == s.readers[step.r := Do(s, step).readers[step.r]]
  {
    var s' := Act(s, step);
    assert s'.now == s.now && |s'.readers| == |s.readers|;
  }

  lemma ReaderStepStaysInRun(states: seq<State>, steps: seq<Step>, s: State, step: Step)
    requires Enabled(s, step) && OfReader(step) && BuiltInRun(states, steps, s)
    requires step.Build? ==> BuildInRun(states, steps, Value(s.writes, s.event, s.now))
    ensures Do(s, step).now == s.now && ReadersInRun(states, steps, Do(s, step).readers, s.now)
  {
    OneReaderMoves(s, step);
    ReaderMovesInRun(states, steps, s, step);
    ReplacedInRun(states, steps, s.readers, step.r, Do(s, step).readers[step.r], s.now);
  }

  lemma ReplacedInRun(states: seq<State>, steps: seq<Step>, readers: seq<Reader>, r: nat, reader: Reader, now: Time)
    requires ReadersInRun(states, steps, readers, now) && r < |readers| && PcInRun(states, steps, reader.pc, now)
    ensures ReadersInRun(states, steps, readers[r := reader], now)
  {
  }

  lemma NoReaderMoves(s: State, step: Step)
    requires Enabled(s, step) && !OfReader(step)
    ensures s.now <= Do(s, step).now && |s.readers| <= |Do(s, step).readers|
    ensures forall r :: 0 <= r < |s.readers| ==> Do(s, step).readers[r] == s.readers[r]
    ensures forall r :: |s.readers| <= r < |Do(s, step).readers| ==> Do(s, step).readers[r].pc.Versioning?
  {
  }

  lemma OtherStepStaysInRun(states: seq<State>, steps: seq<Step>, s: State, step: Step)
    requires Enabled(s, step) && !OfReader(step) && BuiltInRun(states, steps, s)
    ensures ReadersInRun(states, steps, Do(s, step).readers, Do(s, step).now)
  {
    NoReaderMoves(s, step);
    LaterInRun(states, steps, s.readers, Do(s, step).readers, s.now, Do(s, step).now);
  }

  lemma LaterInRun(states: seq<State>, steps: seq<Step>, readers: seq<Reader>, readers': seq<Reader>, now: Time, later: Time)
    requires ReadersInRun(states, steps, readers, now) && now <= later && |readers| <= |readers'|
    requires forall r :: 0 <= r < |readers| ==> readers'[r] == readers[r]
    requires forall r :: |readers| <= r < |readers'| ==> readers'[r].pc.Versioning?
    ensures ReadersInRun(states, steps, readers', later)
  {
    forall r | 0 <= r < |readers'| ensures PcInRun(states, steps, readers'[r].pc, later) {
      assert r < |readers| ==> PcInRun(states, steps, readers[r].pc, now);
    }
  }

  lemma EntriesStay(s: State, step: Step)
    requires Enabled(s, step) && !step.Store?
    ensures forall key :: key in Do(s, step).entries ==> key in s.entries && Do(s, step).entries[key] == s.entries[key]
    ensures s.now <= Do(s, step).now
  {
  }

  lemma StepStaysInRun(states: seq<State>, steps: seq<Step>, s: State, step: Step)
    requires Enabled(s, step) && BuiltInRun(states, steps, s)
    requires step.Build? ==> BuildInRun(states, steps, Value(s.writes, s.event, s.now))
    ensures BuiltInRun(states, steps, Do(s, step))
  {
    if OfReader(step) {
      ReaderStepStaysInRun(states, steps, s, step);
    } else {
      OtherStepStaysInRun(states, steps, s, step);
    }
    if step.Store? {
      StoreInRun(states, steps, s, step);
    } else {
      EntriesStay(s, step);
    }
  }

  lemma {:induction false} RunBuildsItsValues(states: seq<State>, steps: seq<Step>, n: nat)
    requires Run(states, steps) && n < |states| && Numbered(states)
    ensures BuiltInRun(states, steps, states[n])
  {
    if n > 0 {
      RunBuildsItsValues(states, steps, n - 1);
      assert steps[n - 1].Build? ==> BuildInRun(states, steps, Value(states[n - 1].writes, states[n - 1].event, states[n - 1].now));
      StepStaysInRun(states, steps, states[n - 1], steps[n - 1]);
    }
  }

  /**
   * The backstop. Whatever keys are lost, bumps missed and calls failed: a value served from the
   * cache was really built in the run, less than its TTL and the time it took to store before the
   * lookup, and it holds every write that was visible that long before the lookup.
   */
  lemma ServedValueIsAtMostATtlBehind(states: seq<State>, steps: seq<Step>, n: nat, r: nat, m: nat)
    requires Run(states, steps) && n < |states| && r < |states[n].readers| && states[n].readers[r].pc.Hit? && m < |states|
    ensures var e, at := states[n].readers[r].pc.entry, states[n].readers[r].pc.at;
            var lag := e.ttl + (e.stored - e.value.built);
            && BuildInRun(states, steps, e.value)
            && e.value.built <= e.stored <= at < e.value.built + lag
            && (states[m].now + lag <= at ==> states[m].writes <= e.value.writes)
  {
    RunIsNumbered(states, steps);
    RunBuildsItsValues(states, steps, n);
    assert PcInRun(states, steps, states[n].readers[r].pc, states[n].now);
  }

  /** When the version key is missing, or cannot be read, whoever sets it sets it to one and goes on with one. */
  lemma LostVersionRestartsAtOne(s: State, step: Step)
    requires Enabled(s, step) && !s.version.Some? && (step.Bump? || step.GetVersion? || step.ResetVersion?)
    ensures var s' := Do(s, step);
            && |s'.readers| == |s.readers|
            && (step.Bump? ==> s'.version == if step.resets then Some(1) else None)
            && (step.GetVersion? ==> s'.version == s.version && s'.readers[step.r].pc == Resetting)
            && (step.ResetVersion? ==> s'.version == (if step.works then Some(1) else None) && s'.readers[step.r].pc == Looking(1))
  {
  }

  // ---- a cached value is used --------------------------------------------------------------

  /** The step writes or removes the entry under that key. */
  predicate WritesEntry(s: State, step: Step, key: (nat, string))
    requires Enabled(s, step)
  {
    || step == Evict(key)
    || (step.Store? && step.works && s.readers[step.r].pc.version == key.0 && s.readers[step.r].name == key.1)
  }

  lemma OthersKeepTheEntry(s: State, step: Step, key: (nat, string))
    requires Enabled(s, step) && !WritesEntry(s, step, key) && key in s.entries
    ensures key in Do(s, step).entries && Do(s, step).entries[key] == s.entries[key]
  {
  }

  lemma {:induction false} EntryStays(states: seq<State>, steps: seq<Step>, n: nat, m: nat, key: (nat, string))
    requires Run(states, steps) && n <= m < |states| && key in states[n].entries
    requires forall k :: n <= k < m ==> !WritesEntry(states[k], steps[k], key)
    ensures key in states[m].entries && states[m].entries[key] == states[n].entries[key]
  {
    if n < m {
      EntryStays(states, steps, n, m - 1, key);
      OthersKeepTheEntry(states[m - 1], steps[m - 1], key);
    }
  }

  /**
   * A stored value is served, and not built again: whoever looks under the same version and name
   * before its TTL is over, in a lookup that works, gets it, unless it was evicted or replaced.
   */
  lemma StoredValueIsServed(states: seq<State>, steps: seq<Step>, n: nat, m: nat, r: nat, q: nat)
    requires Run(states, steps) && n < m < |steps| && steps[n] == Store(r, true) && steps[m] == Lookup(q, true)
    requires q < |states[m].readers| && r < |states[n].readers|
    requires var stored, asked := states[n].readers[r], states[m].readers[q];
             && stored.pc.Storing? && asked.pc.Looking? && asked.pc.version == stored.pc.version && asked.name == stored.name
             && states[m].now < states[n].now + stored.ttl
             && forall k :: n < k < m ==> !WritesEntry(states[k], steps[k], (stored.pc.version, stored.name))
    ensures q < |states[m + 1].readers|
    ensures var stored := states[n].readers[r];
            states[m + 1].readers[q].pc == Hit(Entry(stored.pc.value, states[n].now, stored.ttl), states[m].now)
  {
    var key := (states[n].readers[r].pc.version, states[n].readers[r].name);
    StoreWrites(states[n], r);
    EntryStays(states, steps, n + 1, m, key);
    LookupFinds(states[m], q);
  }

  lemma StoreWrites(s: State, r: nat)
    requires Enabled(s, Store(r, true))
    ensures var reader := s.readers[r]; var key := (reader.pc.version, reader.name);
            key in Do(s, Store(r, true)).entries && Do(s, Store(r, true)).entries[key] == Entry(reader.pc.value, s.now, reader.ttl)
  {
  }

  lemma LookupFinds(s: State, q: nat)
    requires Enabled(s, Lookup(q, true))
    requires var key := (s.readers[q].pc.version, s.readers[q].name);
             key in s.entries && s.now < s.entries[key].stored + s.entries[key].ttl
    ensures q < |Do(s, Lookup(q, true)).readers|
    ensures Do(s, Lookup(q, true)).readers[q].pc == Hit(s.entries[(s.readers[q].pc.version, s.readers[q].name)], s.now)
  {
  }

  // ---- a call ends -----------------------------------------------------------------------------

  /** How many steps of its own a reader has left at most. */
  function StepsLeft(pc: Pc): nat {
    match pc
    case Versioning => 5
    case Resetting => 4
    case Looking(_) => 3
    case Building(_) => 2
    case Storing(_, _) => 1
    case _ => 0
  }

  predicate StepOfReader(step: Step, r: nat) {
    OfReader(step) && step.r == r
  }

  function OwnStep(r: nat): Step -> int {
    (step: Step) => if StepOfReader(step, r) then 1 else 0
  }

  lemma OwnStepAdvances(s: State, step: Step)
    requires Enabled(s, step) && OfReader(step)
    ensures step.r < |Do(s, step).readers| && StepsLeft(Do(s, step).readers[step.r].pc) < StepsLeft(s.readers[step.r].pc)
  {
    OneReaderMoves(s, step);
  }

  lemma OtherStepWaits(s: State, step: Step, r: nat)
    requires Enabled(s, step) && r < |s.readers| && !StepOfReader(step, r)
    ensures r < |Do(s, step).readers| && Do(s, step).readers[r] == s.readers[r]
  {
    if OfReader(step) {
      OneReaderMoves(s, step);
    } else {
      NoReaderMoves(s, step);
    }
  }

  lemma StepCountsDown(s: State, step: Step, r: nat)
    requires Enabled(s, step) && r < |s.readers|
    ensures r < |Do(s, step).readers|
    ensures OwnStep(r)(step) + StepsLeft(Do(s, step).readers[r].pc) <= StepsLeft(s.readers[r].pc)
  {
    if StepOfReader(step, r) {
      OwnStepAdvances(s, step);
    } else {
      OtherStepWaits(s, step, r);
    }
  }

  lemma {:induction false} StepsCountDown(states: seq<State>, steps: seq<Step>, n: nat, m: nat, r: nat)
    requires Run(states, steps) && n <= m <= |steps| && r < |states[n].readers|
    ensures r < |states[m].readers|
    ensures Sum(steps[n..m], OwnStep(r)) + StepsLeft(states[m].readers[r].pc) <= StepsLeft(states[n].readers[r].pc)
    decreases m
  {
    if n < m {
      var k := m - 1;
      StepsCountDown(states, steps, n, k, r);
      assert steps[n..m] == steps[n..k] + [steps[k]];
      SumAppend(steps[n..k], steps[k], OwnStep(r));
      StepCountsDown(states[k], steps[k], r);
    }
  }

  /**
   * Every call ends: a reader takes at most five steps of its own, whatever fails or is evicted, and
   * while it has not returned a value its next step is open to it.
   */
  lemma CallsEnd(states: seq<State>, steps: seq<Step>, n: nat, m: nat, r: nat)
    requires Run(states, steps) && n <= m <= |steps| && r < |states[n].readers|
    ensures r < |states[m].readers| && Sum(steps[n..m], OwnStep(r)) <= 5
    ensures Returned(states[m].readers[r].pc).None? ==> exists step :: StepOfReader(step, r) && Enabled(states[m], step)
  {
    StepsCountDown(states, steps, n, m, r);
    if Returned(states[m].readers[r].pc).None? {
      NextStepIsOpen(states[m], r);
    }
  }

  lemma NextStepIsOpen(s: State, r: nat)
    requires r < |s.readers| && Returned(s.readers[r].pc).None?
    ensures exists step :: StepOfReader(step, r) && Enabled(s, step)
  {
    var step := match s.readers[r].pc
      case Versioning => GetVersion(r, true)
      case Resetting => ResetVersion(r, true)
      case Looking(_) => Lookup(r, true)
      case Building(_) => Build(r)
      case _ => Store(r, true);
    assert StepOfReader(step, r) && Enabled(s, step);
  }
}
