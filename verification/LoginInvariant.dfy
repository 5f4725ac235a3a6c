/** The invariant of the login guard, kept by every step of a timely run. */
module LoginInvariant {
  import opened Wrappers
  import opened LoginProtocol

  /** How many of the logins were counted. */
  function Tally(logins: seq<Login>): nat {
    if |logins| == 0 then 0
    else
      var n := |logins| - 1;
      Tally(logins[..n]) + (if logins[n].fate.WasCounted? then 1 else 0)
  }

  /** Each login had seen the count of the logins before it, and only the last may wait to be counted. */
  ghost predicate LoginsHold(generation: nat, logins: seq<Login>) {
    && generation == Tally(logins)
    && (forall k :: 0 <= k < |logins| ==> logins[k].seen == Tally(logins[..k]))
    && (forall k :: 0 <= k < |logins| - 1 ==> !logins[k].fate.Uncounted?)
  }

  ghost predicate SomeLoggedIn(workers: seq<Worker>) {
    exists i :: 0 <= i < |workers| && workers[i].pc.LoggedIn?
  }

  ghost predicate LoginsSound(generation: nat, logins: seq<Login>, workers: seq<Worker>) {
    LoginsHold(generation, logins) && (LastUncounted(logins) <==> SomeLoggedIn(workers))
  }

  // ---- one worker ---------------------------------------------------------------

  /** In its critical section a worker owns the lock it took. */
  predicate OwnsItsLock(w: Worker, lock: Option<Lock>) {
    Critical(w.pc) ==> lock == Some(Lock(w.pc.token, w.pc.since + LOCK_TIMEOUT))
  }

  predicate UpToDate(pc: Pc) {
    pc.Current? || pc.Cleared? || pc.LoggingIn? || pc.LoggedIn?
  }

  /** Past the generation check the counter has not moved; past the cool-down check none is running. */
  predicate ChecksHold(w: Worker, generation: nat, cooling: bool) {
    && (UpToDate(w.pc) ==> w.seen == generation)
    && (w.pc.Cleared? ==> !cooling)
    && (w.pc.Counted? || w.pc.Kept? ==> w.pc.failures > 0)
  }

  predicate ReturnsNormally(pc: Pc) {
    pc.Bumped? || ((pc.Releasing? || pc.Watching? || pc.Matched? || pc.Returned?) && pc.ok)
  }

  /** What a worker read is the count of the logins that were settled then. */
  ghost predicate ReadingHolds(w: Worker, generation: nat, logins: seq<Login>) {
    && w.seen <= generation && w.settled <= w.seenLogins <= |logins| && w.seenLogins <= w.settled + 1
    && w.seen == Tally(logins[..w.settled]) && (LastUncounted(logins) ==> w.settled < |logins|)
    && (ReturnsNormally(w.pc) ==> w.seen < generation)
  }

  ghost predicate WorkerSound(w: Worker, lock: Option<Lock>, generation: nat, logins: seq<Login>, cooling: bool) {
    OwnsItsLock(w, lock) && ChecksHold(w, generation, cooling) && ReadingHolds(w, generation, logins)
  }

  ghost predicate WorkersSound(workers: seq<Worker>, lock: Option<Lock>, generation: nat, logins: seq<Login>, cooling: bool) {
    forall i :: 0 <= i < |workers| ==> WorkerSound(workers[i], lock, generation, logins, cooling)
  }

  ghost predicate Inv(s: State) {
    && TokensSound(s) && LoginsSound(s.generation, s.logins, s.workers)
    && WorkersSound(s.workers, s.lock, s.generation, s.logins, CoolingDown(s))
  }

  // ---- who is in the critical section -------------------------------------------------

  lemma OneCriticalWorker(s: State, i: nat, j: nat)
    requires Inv(s) && i < |s.workers| && j < |s.workers|
    requires Critical(s.workers[i].pc) && Critical(s.workers[j].pc)
    ensures i == j
  {
    assert OwnsItsLock(s.workers[i], s.lock) && OwnsItsLock(s.workers[j], s.lock);
  }

  predicate NoneCritical(workers: seq<Worker>) {
    forall i :: 0 <= i < |workers| ==> !Critical(workers[i].pc)
  }

  predicate OnlyCritical(workers: seq<Worker>, w: nat) {
    forall i :: 0 <= i < |workers| && i != w ==> !Critical(workers[i].pc)
  }

  lemma OnlyOneCritical(s: State, w: nat)
    requires Inv(s) && w < |s.workers| && Critical(s.workers[w].pc)
    ensures OnlyCritical(s.workers, w)
  {
    forall i | 0 <= i < |s.workers| && i != w ensures !Critical(s.workers[i].pc) {
      if Critical(s.workers[i].pc) {
        OneCriticalWorker(s, i, w);
      }
    }
  }

  lemma NoneCriticalWithoutTheLock(s: State)
    requires Inv(s) && Timely(s) && !LockLive(s)
    ensures NoneCritical(s.workers)
  {
    forall i | 0 <= i < |s.workers| ensures !Critical(s.workers[i].pc) {
      assert OwnsItsLock(s.workers[i], s.lock);
    }
  }

  /** A release that deletes the lock was the holder's own, past its critical section. */
  lemma NoneCriticalAtRelease(s: State, w: nat)
    requires Inv(s) && Enabled(s, Exec(w)) && !s.workers[w].pc.dirty
    ensures NoneCritical(s.workers)
  {
    forall i | 0 <= i < |s.workers| ensures !Critical(s.workers[i].pc) {
      assert OwnsItsLock(s.workers[i], s.lock);
    }
  }

  lemma TallyAppend(logins: seq<Login>, login: Login)
    ensures Tally(logins + [login]) == Tally(logins) + (if login.fate.WasCounted? then 1 else 0)
    ensures forall k :: 0 <= k <= |logins| ==> (logins + [login])[..k] == logins[..k]
  {
    assert (logins + [login])[..|logins|] == logins;
  }

  /** Settling the last login leaves every shorter history alone. */
  lemma TallySettled(logins: seq<Login>, fate: Fate)
    requires LastUncounted(logins)
    ensures Tally(SettleLast(logins, fate)) == Tally(logins) + (if fate.WasCounted? then 1 else 0)
    ensures |SettleLast(logins, fate)| == |logins|
    ensures forall k :: 0 <= k < |logins| ==> SettleLast(logins, fate)[..k] == logins[..k]
    ensures forall k :: 0 <= k < |logins| ==> SettleLast(logins, fate)[k].seen == logins[k].seen
    ensures forall k :: 0 <= k < |logins| - 1 ==> SettleLast(logins, fate)[k] == logins[k]
    ensures SettleLast(logins, fate)[|logins| - 1].fate == fate
  {
    var n := |logins| - 1;
    assert SettleLast(logins, fate)[..n] == logins[..n];
  }

  lemma SettleKeepsLogins(generation: nat, logins: seq<Login>, fate: Fate)
    requires LoginsHold(generation, logins) && LastUncounted(logins) && !fate.Uncounted?
    ensures LoginsHold(generation + (if fate.WasCounted? then 1 else 0), SettleLast(logins, fate))
    ensures !LastUncounted(SettleLast(logins, fate))
  {
    TallySettled(logins, fate);
  }

  lemma SettleKeepsReading(w: Worker, generation: nat, logins: seq<Login>, fate: Fate)
    requires ReadingHolds(w, generation, logins) && LastUncounted(logins) && !fate.Uncounted?
    ensures ReadingHolds(w, generation + (if fate.WasCounted? then 1 else 0), SettleLast(logins, fate))
  {
    TallySettled(logins, fate);
  }

  lemma AppendKeepsReading(w: Worker, generation: nat, logins: seq<Login>, login: Login)
    requires ReadingHolds(w, generation, logins)
    ensures ReadingHolds(w, generation, logins + [login])
  {
    TallyAppend(logins, login);
  }

  lemma AppendKeepsLogins(generation: nat, logins: seq<Login>, login: Login)
    requires LoginsHold(generation, logins) && !LastUncounted(logins) && login == Login(generation, Uncounted)
    ensures LoginsHold(generation, logins + [login]) && LastUncounted(logins + [login])
  {
    TallyAppend(logins, login);
    var all := logins + [login];
    forall k | 0 <= k < |all| ensures all[k].seen == Tally(all[..k]) {
      assert all[..k] == logins[..k];
      assert logins[..|logins|] == logins;
    }
  }

  // ---- workers that a step leaves alone ---------------------------------------------------

  lemma TouchedIsSound(w: Worker, lock: Option<Lock>, generation: nat, logins: seq<Login>, cooling: bool)
    requires WorkerSound(w, lock, generation, logins, cooling)
    ensures WorkerSound(Touched(w), lock, generation, logins, cooling)
  {
  }

  lemma FreeIsSound(w: Worker, lock: Option<Lock>, lock': Option<Lock>, generation: nat, logins: seq<Login>, cooling: bool)
    requires WorkerSound(w, lock, generation, logins, cooling) && !Critical(w.pc)
    ensures WorkerSound(w, lock', generation, logins, cooling)
  {
  }

  predicate SameOrTouched(was: Worker, now: Worker) {
    now == was || now == Touched(was)
  }

  /** The other workers only learn, at most, that a key they watch was written. */
  predicate OthersUntouched(workers: seq<Worker>, workers': seq<Worker>, w: nat) {
    |workers'| == |workers| && forall i :: 0 <= i < |workers| && i != w ==> SameOrTouched(workers[i], workers'[i])
  }

  lemma MovedWorkersSound(workers: seq<Worker>, workers': seq<Worker>, w: nat, lock: Option<Lock>, lock': Option<Lock>,
                          generation: nat, logins: seq<Login>, cooling: bool)
    requires WorkersSound(workers, lock, generation, logins, cooling) && OthersUntouched(workers, workers', w)
    requires lock' == lock || OnlyCritical(workers, w)
    requires w < |workers'| ==> WorkerSound(workers'[w], lock', generation, logins, cooling)
    ensures WorkersSound(workers', lock', generation, logins, cooling)
  {
    forall i | 0 <= i < |workers'| ensures WorkerSound(workers'[i], lock', generation, logins, cooling) {
      if i != w {
        assert SameOrTouched(workers[i], workers'[i]);
        if lock' != lock {
          FreeIsSound(workers[i], lock, lock', generation, logins, cooling);
        }
        TouchedIsSound(workers[i], lock', generation, logins, cooling);
      }
    }
  }

  lemma SameLoggedIn(workers: seq<Worker>, workers': seq<Worker>, w: nat)
    requires OthersUntouched(workers, workers', w)
    requires w < |workers| ==> !workers[w].pc.LoggedIn? && !workers'[w].pc.LoggedIn?
    ensures SomeLoggedIn(workers') <==> SomeLoggedIn(workers)
  {
    if SomeLoggedIn(workers) {
      var i :| 0 <= i < |workers| && workers[i].pc.LoggedIn?;
      assert SameOrTouched(workers[i], workers'[i]);
    }
    if SomeLoggedIn(workers') {
      var i :| 0 <= i < |workers'| && workers'[i].pc.LoggedIn?;
      assert SameOrTouched(workers[i], workers'[i]);
    }
  }

  // ---- quiet steps -----------------------------------------------------------------------

  /** A step of worker `w` that leaves the generation, the logins and the cool-down alone. */
  lemma QuietStep(s: State, s': State, w: nat)
    requires Inv(s) && TokensSound(s') && w < |s.workers| && OthersUntouched(s.workers, s'.workers, w)
    requires s'.generation == s.generation && s'.logins == s.logins && CoolingDown(s') == CoolingDown(s)
    requires s'.lock == s.lock || OnlyCritical(s.workers, w)
    requires !s.workers[w].pc.LoggedIn? && !s'.workers[w].pc.LoggedIn?
    requires WorkerSound(s'.workers[w], s'.lock, s.generation, s.logins, CoolingDown(s))
    ensures Inv(s')
  {
    MovedWorkersSound(s.workers, s'.workers, w, s.lock, s'.lock, s.generation, s.logins, CoolingDown(s));
    SameLoggedIn(s.workers, s'.workers, w);
  }

  lemma AcquireKeepsInv(s: State, w: nat)
    requires Inv(s) && Timely(s) && Enabled(s, Acquire(w))
    ensures Inv(Do(s, Acquire(w)))
  {
    StepKeepsTokensSound(s, Acquire(w));
    NoneCriticalWithoutTheLock(s);
    assert WorkerSound(s.workers[w], s.lock, s.generation, s.logins, CoolingDown(s));
    QuietStep(s, Do(s, Acquire(w)), w);
  }

  lemma ExecKeepsInv(s: State, w: nat)
    requires Inv(s) && Enabled(s, Exec(w))
    ensures Inv(Do(s, Exec(w)))
  {
    StepKeepsTokensSound(s, Exec(w));
    if !s.workers[w].pc.dirty {
      NoneCriticalAtRelease(s, w);
    }
    assert WorkerSound(s.workers[w], s.lock, s.generation, s.logins, CoolingDown(s));
    QuietStep(s, Do(s, Exec(w)), w);
  }

  /** The steps a worker takes while it holds the lock. */
  predicate AsHolder(step: Step) {
    step.CheckGeneration? || step.SecondCheck? || step.StartLogin? || step.LoginFails? || step.CountFailure? || step.KeepFailures?
  }

  /** The steps a worker takes without the lock, or giving it up. */
  predicate AsOutsider(step: Step) {
    step.CallReturns? || step.CallRefused? || step.FirstCheck? || step.GiveUp? || step.Watch? || step.Compare? || step.Die? || step.RedisFails?
  }

  lemma HolderMovesSoundly(s: State, step: Step)
    requires Enabled(s, step) && AsHolder(step)
    requires WorkerSound(s.workers[step.w], s.lock, s.generation, s.logins, CoolingDown(s))
    ensures WorkerSound(Do(s, step).workers[step.w], s.lock, s.generation, s.logins, CoolingDown(s))
  {
  }

  lemma OutsiderMovesSoundly(s: State, step: Step)
    requires Enabled(s, step) && AsOutsider(step)
    requires WorkerSound(s.workers[step.w], s.lock, s.generation, s.logins, CoolingDown(s))
    ensures WorkerSound(Do(s, step).workers[step.w], s.lock, s.generation, s.logins, CoolingDown(s))
  {
  }

  lemma ReadingIsSound(generation: nat, logins: seq<Login>, lock: Option<Lock>, cooling: bool)
    requires LoginsHold(generation, logins)
    ensures WorkerSound(Reading(generation, logins), lock, generation, logins, cooling)
  {
    assert logins[..|logins|] == logins;
  }

  /** These steps move one worker, who is not logged in before or after, and at most the failure counter. */
  lemma HolderFrame(s: State, step: Step)
    requires Enabled(s, step) && AsHolder(step)
    ensures var s', w := Do(s, step), step.w;
            && s' == s.(workers := s'.workers, failures := s'.failures) && s'.workers == s.workers[w := s'.workers[w]]
            && !s.workers[w].pc.LoggedIn? && !s'.workers[w].pc.LoggedIn?
  {
  }

  lemma OutsiderFrame(s: State, step: Step)
    requires Enabled(s, step) && AsOutsider(step)
    ensures var s', w := Do(s, step), step.w;
            && s' == s.(workers := s'.workers) && s'.workers == s.workers[w := s'.workers[w]]
            && !s.workers[w].pc.LoggedIn? && !s'.workers[w].pc.LoggedIn?
  {
  }

  lemma HolderKeepsInv(s: State, step: Step)
    requires Inv(s) && Enabled(s, step) && AsHolder(step)
    ensures Inv(Do(s, step))
  {
    StepKeepsTokensSound(s, step);
    HolderFrame(s, step);
    HolderMovesSoundly(s, step);
    QuietStep(s, Do(s, step), step.w);
  }

  lemma OutsiderKeepsInv(s: State, step: Step)
    requires Inv(s) && Enabled(s, step) && AsOutsider(step)
    ensures Inv(Do(s, step))
  {
    StepKeepsTokensSound(s, step);
    OutsiderFrame(s, step);
    OutsiderMovesSoundly(s, step);
    QuietStep(s, Do(s, step), step.w);
  }

  lemma ReaderKeepsInv(s: State, w: nat)
    requires Inv(s) && Enabled(s, ReadGeneration(w))
    ensures Inv(Do(s, ReadGeneration(w)))
  {
    StepKeepsTokensSound(s, ReadGeneration(w));
    ReadingIsSound(s.generation, s.logins, s.lock, CoolingDown(s));
    QuietStep(s, Do(s, ReadGeneration(w)), w);
  }

  // ---- a login ---------------------------------------------------------------------------

  lemma NoneLoggedIn(workers: seq<Worker>, w: nat)
    requires OnlyCritical(workers, w) && (w < |workers| ==> !workers[w].pc.LoggedIn?)
    ensures !SomeLoggedIn(workers)
  {
  }

  lemma LoginIsRecorded(generation: nat, logins: seq<Login>, workers: seq<Worker>, workers': seq<Worker>, w: nat)
    requires LoginsSound(generation, logins, workers) && !SomeLoggedIn(workers)
    requires w < |workers'| && workers'[w].pc.LoggedIn?
    ensures LoginsSound(generation, logins + [Login(generation, Uncounted)], workers')
  {
    AppendKeepsLogins(generation, logins, Login(generation, Uncounted));
  }

  lemma WorkersSeeTheLogin(workers: seq<Worker>, lock: Option<Lock>, generation: nat, logins: seq<Login>, cooling: bool)
    requires WorkersSound(workers, lock, generation, logins, cooling)
    ensures WorkersSound(workers, lock, generation, logins + [Login(generation, Uncounted)], cooling)
  {
    forall i | 0 <= i < |workers|
      ensures WorkerSound(workers[i], lock, generation, logins + [Login(generation, Uncounted)], cooling)
    {
      assert WorkerSound(workers[i], lock, generation, logins, cooling);
      AppendKeepsReading(workers[i], generation, logins, Login(generation, Uncounted));
    }
  }

  lemma LoggedInIsSound(w: Worker, lock: Option<Lock>, generation: nat, logins: seq<Login>, cooling: bool)
    requires WorkerSound(w, lock, generation, logins, cooling) && w.pc.LoggingIn?
    ensures WorkerSound(w.(pc := LoggedIn(w.pc.token, w.pc.since)), lock, generation, logins, cooling)
  {
  }

  /** The logins after the one worker that was logging in succeeded. */
  lemma LoginKeepsLogins(s: State, w: nat, moved: Worker)
    requires Inv(s) && w < |s.workers| && s.workers[w].pc.LoggingIn? && moved.pc.LoggedIn?
    ensures LoginsSound(s.generation, s.logins + [Login(s.workers[w].seen, Uncounted)], s.workers[w := moved])
  {
    OnlyOneCritical(s, w);
    NoneLoggedIn(s.workers, w);
    assert ChecksHold(s.workers[w], s.generation, CoolingDown(s));
    LoginIsRecorded(s.generation, s.logins, s.workers, s.workers[w := moved], w);
  }

  lemma LoginKeepsWorkers(workers: seq<Worker>, w: nat, lock: Option<Lock>, generation: nat, logins: seq<Login>, cooling: bool)
    requires WorkersSound(workers, lock, generation, logins, cooling) && w < |workers| && workers[w].pc.LoggingIn?
    ensures WorkersSound(workers[w := workers[w].(pc := LoggedIn(workers[w].pc.token, workers[w].pc.since))], lock, generation,
                         logins + [Login(generation, Uncounted)], cooling)
  {
    WorkersSeeTheLogin(workers, lock, generation, logins, cooling);
    LoggedInIsSound(workers[w], lock, generation, logins + [Login(generation, Uncounted)], cooling);
  }

  lemma LoginSucceedsKeepsInv(s: State, w: nat)
    requires Inv(s) && Enabled(s, LoginSucceeds(w))
    ensures Inv(Do(s, LoginSucceeds(w)))
  {
    StepKeepsTokensSound(s, LoginSucceeds(w));
    assert ChecksHold(s.workers[w], s.generation, CoolingDown(s));
    LoginKeepsLogins(s, w, s.workers[w].(pc := LoggedIn(s.workers[w].pc.token, s.workers[w].pc.since)));
    LoginKeepsWorkers(s.workers, w, s.lock, s.generation, s.logins, CoolingDown(s));
  }

  // ---- a login is settled ---------------------------------------------------------------

  /** Outside the critical section a worker depends on the login counts only. */
  lemma SettledIsSound(w: Worker, lock: Option<Lock>, generation: nat, logins: seq<Login>, cooling: bool, fate: Fate)
    requires WorkerSound(w, lock, generation, logins, cooling) && !Critical(w.pc) && LastUncounted(logins) && !fate.Uncounted?
    ensures WorkerSound(w, lock, generation + (if fate.WasCounted? then 1 else 0), SettleLast(logins, fate), cooling)
  {
    SettleKeepsReading(w, generation, logins, fate);
  }

  /** Where the worker of a login goes when its login is counted, or lost. */
  predicate AfterLogin(was: Worker, moved: Worker, fate: Fate) {
    && moved == was.(pc := moved.pc)
    && (moved.pc.Bumped? || moved.pc.Idle? || (moved.pc.Releasing? && !moved.pc.ok)) && (moved.pc.Bumped? <==> fate.WasCounted?)
  }

  lemma SettlerIsSound(was: Worker, moved: Worker, lock: Option<Lock>, generation: nat, logins: seq<Login>, cooling: bool, fate: Fate)
    requires WorkerSound(was, lock, generation, logins, cooling) && LastUncounted(logins) && !fate.Uncounted? && AfterLogin(was, moved, fate)
    ensures WorkerSound(moved, lock, generation + (if fate.WasCounted? then 1 else 0), SettleLast(logins, fate), cooling)
  {
    SettleKeepsReading(was, generation, logins, fate);
  }

  lemma SettledWorkersSound(workers: seq<Worker>, moved: Worker, w: nat, lock: Option<Lock>, generation: nat, logins: seq<Login>,
                            cooling: bool, fate: Fate)
    requires WorkersSound(workers, lock, generation, logins, cooling) && OnlyCritical(workers, w) && w < |workers|
    requires LastUncounted(logins) && !fate.Uncounted? && AfterLogin(workers[w], moved, fate)
    ensures WorkersSound(workers[w := moved], lock, generation + (if fate.WasCounted? then 1 else 0), SettleLast(logins, fate), cooling)
  {
    var workers' := workers[w := moved];
    forall i | 0 <= i < |workers'|
      ensures WorkerSound(workers'[i], lock, generation + (if fate.WasCounted? then 1 else 0), SettleLast(logins, fate), cooling)
    {
      assert WorkerSound(workers[i], lock, generation, logins, cooling);
      if i == w {
        SettlerIsSound(workers[w], moved, lock, generation, logins, cooling, fate);
      } else {
        SettledIsSound(workers[i], lock, generation, logins, cooling, fate);
      }
    }
  }

  /** The one worker in its critical section leaves it, and its login is counted or lost. */
  lemma SettlingKeepsInv(s: State, w: nat, fate: Fate, moved: Worker, s': State)
    requires Inv(s) && TokensSound(s') && w < |s.workers| && s.workers[w].pc.LoggedIn? && !fate.Uncounted?
    requires AfterLogin(s.workers[w], moved, fate)
    requires s' == s.(generation := s.generation + (if fate.WasCounted? then 1 else 0), logins := SettleLast(s.logins, fate),
                      workers := s.workers[w := moved])
    ensures Inv(s')
  {
    OnlyOneCritical(s, w);
    assert SomeLoggedIn(s.workers);
    SettleKeepsLogins(s.generation, s.logins, fate);
    SettledWorkersSound(s.workers, moved, w, s.lock, s.generation, s.logins, CoolingDown(s), fate);
    assert OnlyCritical(s'.workers, w);
    NoneLoggedIn(s'.workers, w);
  }

  lemma BumpKeepsInv(s: State, w: nat)
    requires Inv(s) && Enabled(s, BumpGeneration(w))
    ensures Inv(Do(s, BumpGeneration(w)))
  {
    StepKeepsTokensSound(s, BumpGeneration(w));
    SettlingKeepsInv(s, w, WasCounted, s.workers[w].(pc := Bumped(s.workers[w].pc.token)), Do(s, BumpGeneration(w)));
  }

  lemma DeathKeepsInv(s: State, w: nat)
    requires Inv(s) && Enabled(s, DieUncounted(w))
    ensures Inv(Do(s, DieUncounted(w)))
  {
    StepKeepsTokensSound(s, DieUncounted(w));
    SettlingKeepsInv(s, w, NeverCounted, s.workers[w].(pc := Idle), Do(s, DieUncounted(w)));
  }

  lemma FailedCountKeepsInv(s: State, w: nat)
    requires Inv(s) && Enabled(s, CountFails(w))
    ensures Inv(Do(s, CountFails(w)))
  {
    StepKeepsTokensSound(s, CountFails(w));
    SettlingKeepsInv(s, w, NeverCounted, s.workers[w].(pc := Releasing(s.workers[w].pc.token, false)), Do(s, CountFails(w)));
  }

  // ---- the cool-down and the clock -----------------------------------------------------------

  /** A cool-down that ends disturbs nobody, and one that starts disturbs nobody outside the critical section. */
  lemma WorkersSoundWhen(workers: seq<Worker>, lock: Option<Lock>, generation: nat, logins: seq<Login>, cooling: bool, cooling': bool)
    requires WorkersSound(workers, lock, generation, logins, cooling)
    requires cooling' ==> cooling || NoneCritical(workers)
    ensures WorkersSound(workers, lock, generation, logins, cooling')
  {
    forall i | 0 <= i < |workers| ensures WorkerSound(workers[i], lock, generation, logins, cooling') {
      assert WorkerSound(workers[i], lock, generation, logins, cooling);
    }
  }

  /** Worker `w` moves on to release, or stays; the cool-down changes as given. */
  lemma CooledKeepsInv(s: State, s': State, w: nat)
    requires Inv(s) && TokensSound(s') && w < |s.workers| == |s'.workers|
    requires s'.lock == s.lock && s'.generation == s.generation && s'.logins == s.logins && s'.workers == s.workers[w := s'.workers[w]]
    requires !s.workers[w].pc.LoggedIn? && !s'.workers[w].pc.LoggedIn?
    requires WorkerSound(s'.workers[w], s.lock, s.generation, s.logins, CoolingDown(s))
    requires CoolingDown(s') ==> CoolingDown(s) || NoneCritical(s'.workers)
    ensures Inv(s')
  {
    MovedWorkersSound(s.workers, s'.workers, w, s.lock, s.lock, s.generation, s.logins, CoolingDown(s));
    WorkersSoundWhen(s'.workers, s.lock, s.generation, s.logins, CoolingDown(s), CoolingDown(s'));
    SameLoggedIn(s.workers, s'.workers, w);
  }

  lemma SetCooldownKeepsInv(s: State, w: nat)
    requires Inv(s) && Enabled(s, SetCooldown(w))
    ensures Inv(Do(s, SetCooldown(w)))
  {
    StepKeepsTokensSound(s, SetCooldown(w));
    OnlyOneCritical(s, w);
    assert WorkerSound(s.workers[w], s.lock, s.generation, s.logins, CoolingDown(s));
    CooledKeepsInv(s, Do(s, SetCooldown(w)), w);
  }

  lemma ClearKeepsInv(s: State, w: nat)
    requires Inv(s) && Enabled(s, ClearCooldown(w))
    ensures Inv(Do(s, ClearCooldown(w)))
  {
    StepKeepsTokensSound(s, ClearCooldown(w));
    assert WorkerSound(s.workers[w], s.lock, s.generation, s.logins, CoolingDown(s));
    CooledKeepsInv(s, Do(s, ClearCooldown(w)), w);
  }

  /** No worker moves: the clock, an expiry, or a reset of the cool-down. */
  lemma StillKeepsInv(s: State, step: Step)
    requires Inv(s) && Enabled(s, step) && (step.Tick? || step.ResetSession?)
    ensures Inv(Do(s, step))
  {
    StepKeepsTokensSound(s, step);
    WorkersSoundWhen(s.workers, s.lock, s.generation, s.logins, CoolingDown(s), CoolingDown(Do(s, step)));
  }

  lemma ExpireKeepsInv(s: State, noticed: bool)
    requires Inv(s) && Timely(s) && Enabled(s, ExpireLock(noticed))
    ensures Inv(Do(s, ExpireLock(noticed)))
  {
    var s' := Do(s, ExpireLock(noticed));
    StepKeepsTokensSound(s, ExpireLock(noticed));
    NoneCriticalWithoutTheLock(s);
    MovedWorkersSound(s.workers, s'.workers, |s.workers|, s.lock, None, s.generation, s.logins, CoolingDown(s));
    SameLoggedIn(s.workers, s'.workers, |s.workers|);
  }

  // ---- every step ------------------------------------------------------------------------

  lemma StepKeepsInv(s: State, step: Step)
    requires Inv(s) && Timely(s) && Enabled(s, step)
    ensures Inv(Do(s, step))
  {
    if AsHolder(step) {
      HolderKeepsInv(s, step);
    } else if AsOutsider(step) {
      OutsiderKeepsInv(s, step);
    } else if step.Tick? || step.ResetSession? {
      StillKeepsInv(s, step);
    } else {
      SpecialStepKeepsInv(s, step);
    }
  }

  lemma SpecialStepKeepsInv(s: State, step: Step)
    requires Inv(s) && Timely(s) && Enabled(s, step)
    requires !AsHolder(step) && !AsOutsider(step) && !step.Tick? && !step.ResetSession?
    ensures Inv(Do(s, step))
  {
    match step
    case ReadGeneration(w) => ReaderKeepsInv(s, w);
    case ExpireLock(n) => ExpireKeepsInv(s, n);
    case ClearCooldown(w) => ClearKeepsInv(s, w);
    case Acquire(w) => AcquireKeepsInv(s, w);
    case Exec(w) => ExecKeepsInv(s, w);
    case LoginSucceeds(w) => LoginSucceedsKeepsInv(s, w);
    case BumpGeneration(w) => BumpKeepsInv(s, w);
    case SetCooldown(w) => SetCooldownKeepsInv(s, w);
    case DieUncounted(w) => DeathKeepsInv(s, w);
    case CountFails(w) => FailedCountKeepsInv(s, w);
  }

  lemma {:induction false} InvThroughout(states: seq<State>, steps: seq<Step>, n: nat)
    requires TimelyRun(states, steps) && n < |states|
    ensures Inv(states[n])
  {
    if n > 0 {
      InvThroughout(states, steps, n - 1);
      StepKeepsInv(states[n - 1], steps[n - 1]);
    } else {
      InitIsSound(states[0]);
    }
  }

  lemma InitIsSound(s: State)
    requires Init(s)
    ensures Inv(s)
  {
  }
}
