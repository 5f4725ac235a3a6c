/**
 * The cluster-wide login guard (`providers/sessions.py`) as interleaved steps of any number of
 * workers over shared Redis keys. Every step is one Redis command, one adapter call, or the clock.
 * Any Redis command may raise instead. A command that took effect although its answer was lost is
 * the command's step followed by a failure of the next one.
 */
module LoginProtocol {
  import opened Wrappers

  type Millis = nat

  const LOCK_TIMEOUT: Millis := 180_000
  const COOLDOWN_SECONDS: nat := 60
  const COOLDOWN_MAX_SECONDS: nat := 900
  const FAILURES_TTL: Millis := 3_600_000

  datatype Lock = Lock(token: nat, expires: Millis)

  datatype Counter = Counter(count: nat, expires: Option<Millis>)

  /** Where a worker is inside `run_authenticated`. `ok` is a normal return of `_login_once`. */
  datatype Pc =
    | Idle
    | Calling
    | Refused
    | Acquiring
    | Holding(token: nat, since: Millis)
    | Current(token: nat, since: Millis)
    | Cleared(token: nat, since: Millis)
    | LoggingIn(token: nat, since: Millis)
    | LoggedIn(token: nat, since: Millis)
    | Failed(token: nat, since: Millis)
    | Counted(token: nat, since: Millis, failures: nat)
    | Kept(token: nat, since: Millis, failures: nat)
    | Bumped(token: nat)
    | Releasing(token: nat, ok: bool)
    | Watching(token: nat, ok: bool, dirty: bool)
    | Matched(token: nat, ok: bool, dirty: bool)
    | Returned(ok: bool)

  /**
   * `seen` is the generation the worker read. Then `seenLogins` logins had completed, and `settled`
   * of them were no longer waiting to be counted.
   */
  datatype Worker = Worker(pc: Pc, seen: nat, settled: nat, seenLogins: nat)

  /** A successful login is counted by its worker, unless the worker dies first or the count raises. */
  datatype Fate = Uncounted | WasCounted | NeverCounted

  datatype Login = Login(seen: nat, fate: Fate)

  /** `logins` records the successful logins in order of completion, with the generation each had seen. */
  datatype State = State(
    now: Millis,
    lock: Option<Lock>,
    generation: nat,
    cooldown: Option<Millis>,
    failures: Option<Counter>,
    nextToken: nat,
    workers: seq<Worker>,
    logins: seq<Login>)

  datatype Step =
    | Tick(elapsed: nat)
    | ReadGeneration(w: nat)
    | CallReturns(w: nat)
    | CallRefused(w: nat)
    | FirstCheck(w: nat)
    | Acquire(w: nat)
    | GiveUp(w: nat)
    | CheckGeneration(w: nat)
    | SecondCheck(w: nat)
    | StartLogin(w: nat)
    | LoginSucceeds(w: nat)
    | LoginFails(w: nat, retryWithoutCooldown: bool)
    | CountFailure(w: nat)
    | KeepFailures(w: nat)
    | SetCooldown(w: nat)
    | BumpGeneration(w: nat)
    | ClearCooldown(w: nat)
    | Watch(w: nat)
    | Compare(w: nat)
    | Exec(w: nat)
    | Die(w: nat)
    | DieUncounted(w: nat)
    | CountFails(w: nat)
    | RedisFails(w: nat)
    | ExpireLock(noticed: bool)
    | ResetSession

  predicate LockLive(s: State) {
    s.lock.Some? && s.now < s.lock.value.expires
  }

  predicate CoolingDown(s: State) {
    s.cooldown.Some? && s.now < s.cooldown.value
  }

  predicate Holds(s: State, token: nat) {
    LockLive(s) && s.lock.value.token == token
  }

  /** Seconds of cool-down after the `failures`-th consecutive failed login. */
  function CooldownSeconds(failures: nat): nat
    requires failures > 0
  {
    var doubled := COOLDOWN_SECONDS * Power2(if failures - 1 < 10 then failures - 1 else 10);
    if doubled < COOLDOWN_MAX_SECONDS then doubled else COOLDOWN_MAX_SECONDS
  }

  function Power2(n: nat): nat {
    if n == 0 then 1 else 2 * Power2(n - 1)
  }

  /** A write to the lock key aborts every transaction that watches it. */
  function Touched(w: Worker): Worker {
    if w.pc.Watching? then w.(pc := Watching(w.pc.token, w.pc.ok, true))
    else if w.pc.Matched? then w.(pc := Matched(w.pc.token, w.pc.ok, true))
    else w
  }

  function TouchAll(workers: seq<Worker>): seq<Worker> {
    seq(|workers|, i requires 0 <= i < |workers| => Touched(workers[i]))
  }

  function LiveFailures(s: State): nat {
    match s.failures
    case Some(Counter(n, expires)) => if expires.Some? && expires.value <= s.now then 0 else n
    case None => 0
  }

  predicate StepOfWorker(step: Step) {
    !step.Tick? && !step.ExpireLock? && !step.ResetSession?
  }

  predicate Enabled(s: State, step: Step) {
    && (StepOfWorker(step) ==> step.w < |s.workers|)
    && match step
       case Tick(_) => true
       case ExpireLock(_) => s.lock.Some? && !LockLive(s)
       case ResetSession => true
       case ReadGeneration(w) => s.workers[w].pc.Idle? || s.workers[w].pc.Returned?
       case CallReturns(w) => s.workers[w].pc.Calling?
       case CallRefused(w) => s.workers[w].pc.Calling?
       case FirstCheck(w) => s.workers[w].pc.Refused?
       case Acquire(w) => s.workers[w].pc.Acquiring? && !LockLive(s)
       case GiveUp(w) => s.workers[w].pc.Acquiring?
       case CheckGeneration(w) => s.workers[w].pc.Holding?
       case SecondCheck(w) => s.workers[w].pc.Current?
       case StartLogin(w) => s.workers[w].pc.Cleared?
       case LoginSucceeds(w) => s.workers[w].pc.LoggingIn?
       case LoginFails(w, _) => s.workers[w].pc.LoggingIn?
       case CountFailure(w) => s.workers[w].pc.Failed?
       case KeepFailures(w) => s.workers[w].pc.Counted?
       case SetCooldown(w) => s.workers[w].pc.Kept? && s.workers[w].pc.failures > 0
       case BumpGeneration(w) => s.workers[w].pc.LoggedIn?
       case ClearCooldown(w) => s.workers[w].pc.Bumped?
       case Watch(w) => s.workers[w].pc.Releasing?
       case Compare(w) => s.workers[w].pc.Watching?
       case Exec(w) => s.workers[w].pc.Matched?
       case Die(w) => !s.workers[w].pc.LoggedIn?
       case DieUncounted(w) => s.workers[w].pc.LoggedIn?
       case CountFails(w) => s.workers[w].pc.LoggedIn?
       case RedisFails(w) => CallsRedis(s.workers[w].pc)
  }

  predicate LastUncounted(logins: seq<Login>) {
    |logins| > 0 && logins[|logins| - 1].fate.Uncounted?
  }

  function SettleLast(logins: seq<Login>, fate: Fate): seq<Login> {
    if |logins| == 0 then [] else logins[|logins| - 1 := logins[|logins| - 1].(fate := fate)]
  }

  function Reading(generation: nat, logins: seq<Login>): Worker {
    Worker(Calling, generation, if LastUncounted(logins) then |logins| - 1 else |logins|, |logins|)
  }

  /** Inside the `try` whose `finally` releases the lock, at a Redis call other than the count. */
  predicate UnderLock(pc: Pc) {
    pc.Holding? || pc.Current? || pc.Failed? || pc.Counted? || pc.Kept? || pc.Bumped?
  }

  /** The next thing the worker does is a Redis call that may raise, the count excepted. */
  predicate CallsRedis(pc: Pc) {
    UnderLock(pc) || pc.Refused? || pc.Acquiring? || pc.Releasing? || pc.Watching? || pc.Matched?
  }

  function Goto(s: State, w: nat, pc: Pc): State
    requires w < |s.workers|
  {
    s.(workers := s.workers[w := s.workers[w].(pc := pc)])
  }

  /** INCR of the failure counter, which keeps the expiry it had. */
  function FailureCounted(s: State, w: nat): State
    requires w < |s.workers| && s.workers[w].pc.Failed?
  {
    var pc := s.workers[w].pc;
    var n := LiveFailures(s) + 1;
    var expires := if n == 1 then None else s.failures.value.expires;
    Goto(s.(failures := Some(Counter(n, expires))), w, Counted(pc.token, pc.since, n))
  }

  /** EXPIRE of the failure counter. */
  function FailuresKept(s: State, w: nat): State
    requires w < |s.workers| && s.workers[w].pc.Counted?
  {
    var pc := s.workers[w].pc;
    Goto(s.(failures := if LiveFailures(s) == 0 then s.failures else Some(Counter(LiveFailures(s), Some(s.now + FAILURES_TTL)))),
         w, Kept(pc.token, pc.since, pc.failures))
  }

  function CooldownStarted(s: State, w: nat): State
    requires w < |s.workers| && s.workers[w].pc.Kept? && s.workers[w].pc.failures > 0
  {
    var pc := s.workers[w].pc;
    Goto(s.(cooldown := Some(s.now + 1000 * CooldownSeconds(pc.failures))), w, Releasing(pc.token, false))
  }

  /** EXEC deletes the lock, unless the key it watched was written. */
  function Executed(s: State, w: nat): State
    requires w < |s.workers| && s.workers[w].pc.Matched?
  {
    var pc := s.workers[w].pc;
    if pc.dirty then Goto(s, w, Returned(pc.ok))
    else Goto(s.(lock := None, workers := TouchAll(s.workers)), w, Returned(pc.ok))
  }

  predicate LetsGo(step: Step) {
    step.Watch? || step.Compare? || step.Exec? || step.Die? || step.DieUncounted? || step.CountFails? || step.RedisFails?
  }

  /** The steps of a release, of a death and of a failed call. */
  function LetGo(s: State, step: Step): State
    requires Enabled(s, step) && LetsGo(step)
  {
    match step
    case Watch(w) => Goto(s, w, Watching(s.workers[w].pc.token, s.workers[w].pc.ok, false))
    case Compare(w) =>
      var pc := s.workers[w].pc;
      Goto(s, w, if Holds(s, pc.token) then Matched(pc.token, pc.ok, pc.dirty) else Returned(pc.ok))
    case Exec(w) => Executed(s, w)
    case Die(w) => Goto(s, w, Idle)
    case DieUncounted(w) => Goto(s.(logins := SettleLast(s.logins, NeverCounted)), w, Idle)
    case CountFails(w) =>
      Goto(s.(logins := SettleLast(s.logins, NeverCounted)), w, Releasing(s.workers[w].pc.token, false))
    case RedisFails(w) =>
      var pc := s.workers[w].pc;
      Goto(s, w, if UnderLock(pc) then Releasing(pc.token, false) else Returned(false))
  }

  function Do(s: State, step: Step): State
    requires Enabled(s, step)
  {
    match step
    case Tick(elapsed) => s.(now := s.now + elapsed)
    case ExpireLock(noticed) => s.(lock := None, workers := if noticed then TouchAll(s.workers) else s.workers)
    case ResetSession => s.(cooldown := None, failures := None)
    case ReadGeneration(w) => s.(workers := s.workers[w := Reading(s.generation, s.logins)])
    case CallReturns(w) => Goto(s, w, Idle)
    case CallRefused(w) => Goto(s, w, Refused)
    case FirstCheck(w) => Goto(s, w, if CoolingDown(s) then Returned(false) else Acquiring)
    case Acquire(w) =>
      Goto(s.(lock := Some(Lock(s.nextToken, s.now + LOCK_TIMEOUT)),
              nextToken := s.nextToken + 1,
              workers := TouchAll(s.workers)),
           w, Holding(s.nextToken, s.now))
    case GiveUp(w) => Goto(s, w, Returned(false))
    case CheckGeneration(w) =>
      var pc := s.workers[w].pc;
      Goto(s, w, if s.generation != s.workers[w].seen then Releasing(pc.token, true) else Current(pc.token, pc.since))
    case SecondCheck(w) =>
      var pc := s.workers[w].pc;
      Goto(s, w, if CoolingDown(s) then Releasing(pc.token, false) else Cleared(pc.token, pc.since))
    case StartLogin(w) => Goto(s, w, LoggingIn(s.workers[w].pc.token, s.workers[w].pc.since))
    case LoginSucceeds(w) =>
      Goto(s.(logins := s.logins + [Login(s.workers[w].seen, Uncounted)]), w, LoggedIn(s.workers[w].pc.token, s.workers[w].pc.since))
    case LoginFails(w, exempt) =>
      var pc := s.workers[w].pc;
      Goto(s, w, if exempt then Releasing(pc.token, false) else Failed(pc.token, pc.since))
    case CountFailure(w) => FailureCounted(s, w)
    case KeepFailures(w) => FailuresKept(s, w)
    case SetCooldown(w) => CooldownStarted(s, w)
    case BumpGeneration(w) =>
      Goto(s.(generation := s.generation + 1, logins := SettleLast(s.logins, WasCounted)), w, Bumped(s.workers[w].pc.token))
    case ClearCooldown(w) =>
      Goto(s.(cooldown := None, failures := None), w, Releasing(s.workers[w].pc.token, true))
    case _ => LetGo(s, step)
  }

  predicate Init(s: State) {
    && s.lock.None? && s.generation == 0 && s.cooldown.None? && s.failures.None? && s.logins == []
    && (forall i :: 0 <= i < |s.workers| ==> s.workers[i] == Worker(Idle, 0, 0, 0))
  }

  /** From taking the lock until the login is counted, or its cool-down is set. */
  predicate Critical(pc: Pc) {
    pc.Holding? || pc.Current? || pc.Cleared? || pc.LoggingIn? || pc.LoggedIn? || pc.Failed? || pc.Counted? || pc.Kept?
  }

  /**
   * The documented timing rule: a login, with the Redis calls around it, ends before the lock
   * times out.
   */
  ghost predicate Timely(s: State) {
    forall i :: 0 <= i < |s.workers| && Critical(s.workers[i].pc) ==> s.now < s.workers[i].pc.since + LOCK_TIMEOUT
  }

  /** The states of a run, one more than its steps. */
  ghost predicate Run(states: seq<State>, steps: seq<Step>) {
    && |states| == |steps| + 1 && Init(states[0])
    && (forall n :: 0 <= n < |steps| ==> Enabled(states[n], steps[n]) && states[n + 1] == Do(states[n], steps[n]))
  }

  ghost predicate TimelyRun(states: seq<State>, steps: seq<Step>) {
    Run(states, steps) && forall n :: 0 <= n < |states| ==> Timely(states[n])
  }

  // ---- releasing never frees somebody else's lock -------------------------------------

  predicate HasToken(pc: Pc) {
    Critical(pc) || pc.Bumped? || pc.Releasing? || pc.Watching? || pc.Matched?
  }

  /** Tokens are unique, and a clean watch means the lock is still the watcher's own, or gone. */
  ghost predicate TokensSound(s: State) {
    && (s.lock.Some? ==> s.lock.value.token < s.nextToken)
    && (forall i :: 0 <= i < |s.workers| && HasToken(s.workers[i].pc) ==> s.workers[i].pc.token < s.nextToken)
    && (forall i, j :: 0 <= i < j < |s.workers| && HasToken(s.workers[i].pc) && HasToken(s.workers[j].pc) ==>
          s.workers[i].pc.token != s.workers[j].pc.token)
    && (forall i :: 0 <= i < |s.workers| && s.workers[i].pc.Matched? && !s.workers[i].pc.dirty ==>
          s.lock.None? || s.lock.value.token == s.workers[i].pc.token)
  }

  /** A step that moves one worker on with the token it had, or without one. */
  lemma MoveKeepsTokens(s: State, w: nat, moved: Worker, s': State)
    requires TokensSound(s) && w < |s.workers|
    requires s'.workers == s.workers[w := moved] && s'.lock == s.lock && s'.nextToken == s.nextToken
    requires HasToken(moved.pc) ==> HasToken(s.workers[w].pc) && moved.pc.token == s.workers[w].pc.token
    requires moved.pc.Matched? ==> s.lock.Some? && s.lock.value.token == moved.pc.token
    ensures TokensSound(s')
  {
  }

  lemma AcquireKeepsTokens(s: State, w: nat)
    requires TokensSound(s) && w < |s.workers| && s.workers[w].pc.Acquiring?
    requires Enabled(s, Acquire(w))
    ensures TokensSound(Do(s, Acquire(w)))
  {
    var s' := Do(s, Acquire(w));
    forall i | 0 <= i < |s.workers| && HasToken(s'.workers[i].pc) && i != w
      ensures HasToken(s.workers[i].pc) && s'.workers[i].pc.token == s.workers[i].pc.token < s.nextToken
      ensures s'.workers[i].pc.Matched? ==> s'.workers[i].pc.dirty
    {
      assert s'.workers[i] == Touched(s.workers[i]);
    }
  }

  lemma UnlockKeepsTokens(s: State, workers: seq<Worker>, s': State)
    requires TokensSound(s) && (workers == s.workers || workers == TouchAll(s.workers))
    requires s'.lock.None? && s'.nextToken == s.nextToken && s'.workers == workers
    ensures TokensSound(s')
  {
    forall i | 0 <= i < |workers| && HasToken(workers[i].pc)
      ensures HasToken(s.workers[i].pc) && workers[i].pc.token == s.workers[i].pc.token
    {
    }
  }

  /** Every other step of a worker moves that worker alone, with its token, and leaves the lock. */
  lemma OrdinaryStep(s: State, step: Step)
    requires Enabled(s, step) && StepOfWorker(step) && !step.Acquire? && !step.Exec?
    ensures var s', w := Do(s, step), step.w;
            var moved, was := s'.workers[w], s.workers[w];
            && s'.workers == s.workers[w := moved] && s'.lock == s.lock && s'.nextToken == s.nextToken
            && (HasToken(moved.pc) ==> HasToken(was.pc) && moved.pc.token == was.pc.token)
            && (moved.pc.Matched? ==> s.lock.Some? && s.lock.value.token == moved.pc.token)
  {
    match step
    case _ =>
  }

  lemma StepKeepsTokensSound(s: State, step: Step)
    requires TokensSound(s) && Enabled(s, step)
    ensures TokensSound(Do(s, step))
  {
    var s' := Do(s, step);
    match step
    case Tick(_) =>
    case ResetSession =>
    case ExpireLock(_) => UnlockKeepsTokens(s, s'.workers, s');
    case Acquire(w) => AcquireKeepsTokens(s, w);
    case Exec(w) => ExecKeepsTokens(s, w);
    case _ => OrdinaryStepKeepsTokens(s, step);
  }

  lemma ExecKeepsTokens(s: State, w: nat)
    requires TokensSound(s) && Enabled(s, Exec(w))
    ensures TokensSound(Do(s, Exec(w)))
  {
    var s' := Do(s, Exec(w));
    if s.workers[w].pc.dirty {
      MoveKeepsTokens(s, w, s'.workers[w], s');
    } else {
      var unlocked := s.(lock := None, workers := TouchAll(s.workers));
      UnlockKeepsTokens(s, TouchAll(s.workers), unlocked);
      MoveKeepsTokens(unlocked, w, s'.workers[w], s');
    }
  }

  lemma OrdinaryStepKeepsTokens(s: State, step: Step)
    requires TokensSound(s) && Enabled(s, step) && StepOfWorker(step) && !step.Acquire? && !step.Exec?
    ensures TokensSound(Do(s, step))
  {
    OrdinaryStep(s, step);
    MoveKeepsTokens(s, step.w, Do(s, step).workers[step.w], Do(s, step));
  }

  lemma {:induction false} TokensSoundThroughout(states: seq<State>, steps: seq<Step>, n: nat)
    requires Run(states, steps) && n < |states|
    ensures TokensSound(states[n])
  {
    if n > 0 {
      TokensSoundThroughout(states, steps, n - 1);
      StepKeepsTokensSound(states[n - 1], steps[n - 1]);
    }
  }

  /**
   * Under every interleaving of expiry, acquisition and the WATCH, GET and EXEC of releases, with
   * no timing assumption at all: a release that deletes a lock deletes the releaser's own.
   */
  lemma ReleaseDeletesOnlyItsOwnLock(states: seq<State>, steps: seq<Step>, n: nat)
    requires Run(states, steps) && n < |steps| && steps[n].Exec?
    requires states[n].lock.Some? && states[n + 1].lock != states[n].lock
    ensures states[n].lock.value.token == states[n].workers[steps[n].w].pc.token
    ensures states[n + 1].lock.None?
  {
    TokensSoundThroughout(states, steps, n);
  }
}
