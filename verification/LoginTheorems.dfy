/** What the login guard promises in every timely run, for any number of workers. */
module LoginTheorems {
  import opened Wrappers
  import opened LoginProtocol
  import opened LoginInvariant

  // ---- the promises --------------------------------------------------------------

  /** Logins never overlap. */
  lemma LoginsNeverOverlap(states: seq<State>, steps: seq<Step>, n: nat, i: nat, j: nat)
    requires TimelyRun(states, steps) && n < |states| && i < |states[n].workers| && j < |states[n].workers|
    requires states[n].workers[i].pc.LoggingIn? && states[n].workers[j].pc.LoggingIn?
    ensures i == j
  {
    InvThroughout(states, steps, n);
    OneCriticalWorker(states[n], i, j);
  }

  lemma {:induction false} TallyGrows(logins: seq<Login>, i: nat, j: nat)
    requires i <= j <= |logins|
    ensures Tally(logins[..i]) <= Tally(logins[..j])
    ensures Tally(logins[..i]) == Tally(logins[..j]) <==> forall k :: i <= k < j ==> !logins[k].fate.WasCounted?
  {
    if i < j {
      TallyGrows(logins, i, j - 1);
      assert logins[..j][..j - 1] == logins[..j - 1];
    }
  }

  /**
   * The generation counts the counted logins, and a login starts from the number counted before it.
   * So two successful logins started from one generation exactly when neither the first nor any
   * login between them was counted.
   */
  lemma OneLoginPerGeneration(states: seq<State>, steps: seq<Step>, n: nat, i: nat, j: nat)
    requires TimelyRun(states, steps) && n < |states| && i < j < |states[n].logins|
    ensures var logins := states[n].logins;
            && states[n].generation == Tally(logins) && logins[i].seen <= logins[j].seen
            && (logins[i].seen == logins[j].seen <==> forall k :: i <= k < j ==> logins[k].fate.NeverCounted?)
  {
    InvThroughout(states, steps, n);
    TallyGrows(states[n].logins, i, j);
  }

  /** A login is never counted only if its worker died before the count, or the count raised, in a step of the run. */
  lemma {:induction false} OnlyAFailedCountLosesALogin(states: seq<State>, steps: seq<Step>, n: nat)
    requires Run(states, steps) && n < |states| && forall m :: 0 <= m < n ==> !steps[m].DieUncounted? && !steps[m].CountFails?
    ensures forall k :: 0 <= k < |states[n].logins| ==> !states[n].logins[k].fate.NeverCounted?
  {
    if n > 0 {
      OnlyAFailedCountLosesALogin(states, steps, n - 1);
      CountedOrWaiting(states[n - 1], steps[n - 1]);
    }
  }

  lemma CountedOrWaiting(s: State, step: Step)
    requires Enabled(s, step) && !step.DieUncounted? && !step.CountFails?
    requires forall k :: 0 <= k < |s.logins| ==> !s.logins[k].fate.NeverCounted?
    ensures forall k :: 0 <= k < |Do(s, step).logins| ==> !Do(s, step).logins[k].fate.NeverCounted?
  {
  }

  /** No login starts while a cool-down runs. */
  lemma NoLoginStartsDuringCooldown(states: seq<State>, steps: seq<Step>, n: nat)
    requires TimelyRun(states, steps) && n < |steps| && steps[n].StartLogin?
    ensures !CoolingDown(states[n])
  {
    InvThroughout(states, steps, n);
    assert ChecksHold(states[n].workers[steps[n].w], states[n].generation, CoolingDown(states[n]));
  }

  /**
   * When `_login_once` returns normally, a successful login was counted after this worker read the
   * generation. That login completed after the reading too, unless it is the one that had
   * completed but was not counted yet at that moment.
   */
  lemma NormalReturnMeansANewLogin(states: seq<State>, steps: seq<Step>, n: nat, w: nat)
    requires TimelyRun(states, steps) && n < |states| && w < |states[n].workers|
    requires states[n].workers[w].pc == Returned(true)
    ensures var worker, logins := states[n].workers[w], states[n].logins;
            && worker.seenLogins - 1 <= worker.settled <= worker.seenLogins
            && exists k :: worker.settled <= k < |logins| && logins[k].fate.WasCounted?
  {
    InvThroughout(states, steps, n);
    var worker, logins := states[n].workers[w], states[n].logins;
    assert ReadingHolds(worker, states[n].generation, logins);
    assert logins[..|logins|] == logins;
    TallyGrows(logins, worker.settled, |logins|);
  }

  // ---- why the exception is needed -----------------------------------------------------

  /** Two workers, no cool-down, nobody watching the clock. */
  predicate Pair(s: State, lock: Option<Lock>, generation: nat, a: Worker, b: Worker, logins: nat) {
    && |s.workers| == 2 && s.workers[0] == a && s.workers[1] == b
    && s.now == 0 && s.lock == lock && s.generation == generation && s.cooldown.None? && |s.logins| == logins
    && s.nextToken == (if a.pc.Idle? || a.pc.Calling? || a.pc.Refused? || a.pc.Acquiring? then 0
                       else if b.pc.Idle? || b.pc.Calling? || b.pc.Refused? || b.pc.Acquiring? then 1 else 2)
  }

  ghost predicate ReachedIn(states: seq<State>, steps: seq<Step>, s: State) {
    TimelyRun(states, steps) && states[|steps|] == s
  }

  /** Some timely run leads to `s`. */
  ghost predicate Reachable(s: State) {
    exists states, steps :: ReachedIn(states, steps, s)
  }

  lemma Start(s: State)
    requires Init(s) && Timely(s)
    ensures Reachable(s)
  {
    assert ReachedIn([s], [], s);
  }

  lemma Go(s: State, step: Step) returns (s': State)
    requires Reachable(s) && Enabled(s, step) && Timely(Do(s, step))
    ensures s' == Do(s, step) && Reachable(s')
  {
    s' := Do(s, step);
    var states, steps :| ReachedIn(states, steps, s);
    assert ReachedIn(states + [s'], steps + [step], s');
  }

  lemma FirstWorkerIsRefused(idle: Worker) returns (s: State)
    requires idle == Worker(Idle, 0, 0, 0)
    ensures Reachable(s) && s == State(0, None, 0, None, None, 0, [idle.(pc := Acquiring), idle], [])
  {
    s := State(0, None, 0, None, None, 0, [idle, idle], []);
    Start(s);
    s := Go(s, ReadGeneration(0));
    s := Go(s, CallRefused(0));
    s := Go(s, FirstCheck(0));
  }

  lemma FirstWorkerTakesTheLock(idle: Worker) returns (s: State)
    requires idle == Worker(Idle, 0, 0, 0)
    ensures Reachable(s) && Pair(s, Some(Lock(0, LOCK_TIMEOUT)), 0, idle.(pc := Holding(0, 0)), idle, 0)
  {
    s := FirstWorkerIsRefused(idle);
    s := Go(s, Acquire(0));
  }

  lemma FirstWorkerMayLogIn(idle: Worker) returns (s: State)
    requires idle == Worker(Idle, 0, 0, 0)
    ensures Reachable(s) && Pair(s, Some(Lock(0, LOCK_TIMEOUT)), 0, idle.(pc := Cleared(0, 0)), idle, 0)
  {
    s := FirstWorkerTakesTheLock(idle);
    s := Go(s, CheckGeneration(0));
    s := Go(s, SecondCheck(0));
  }

  lemma FirstWorkerLogsIn(idle: Worker) returns (s: State)
    requires idle == Worker(Idle, 0, 0, 0)
    ensures Reachable(s) && Pair(s, Some(Lock(0, LOCK_TIMEOUT)), 0, idle.(pc := LoggedIn(0, 0)), idle, 1)
    ensures s.logins == [Login(0, Uncounted)]
  {
    s := FirstWorkerMayLogIn(idle);
    s := Go(s, StartLogin(0));
    s := Go(s, LoginSucceeds(0));
  }

  lemma SecondWorkerWaits(idle: Worker) returns (s: State)
    requires idle == Worker(Idle, 0, 0, 0)
    ensures Reachable(s)
    ensures Pair(s, Some(Lock(0, LOCK_TIMEOUT)), 0, idle.(pc := LoggedIn(0, 0)), Worker(Acquiring, 0, 0, 1), 1)
    ensures s.logins == [Login(0, Uncounted)]
  {
    s := FirstWorkerLogsIn(idle);
    s := Go(s, ReadGeneration(1));
    s := Go(s, CallRefused(1));
    s := Go(s, FirstCheck(1));
  }

  lemma SecondWorkerReadsBeforeTheCount(idle: Worker) returns (s: State)
    requires idle == Worker(Idle, 0, 0, 0)
    ensures Reachable(s)
    ensures Pair(s, Some(Lock(0, LOCK_TIMEOUT)), 1, idle.(pc := Bumped(0)), Worker(Acquiring, 0, 0, 1), 1)
  {
    s := SecondWorkerWaits(idle);
    s := Go(s, BumpGeneration(0));
  }

  /** The first worker's lock times out, and the second one takes it and finds the count moved on. */
  lemma SecondWorkerSkipsItsLogin(idle: Worker) returns (s: State)
    requires idle == Worker(Idle, 0, 0, 0)
    ensures Reachable(s) && |s.workers| == 2 && |s.logins| == 1 && !Critical(s.workers[0].pc)
    ensures s.workers[1].pc.Releasing? && s.workers[1].pc.ok && s.workers[1].seenLogins == 1
    ensures s.lock == Some(Lock(s.workers[1].pc.token, s.now + LOCK_TIMEOUT))
  {
    s := SecondWorkerReadsBeforeTheCount(idle);
    s := Go(s, Tick(LOCK_TIMEOUT));
    s := Go(s, Acquire(1));
    s := Go(s, CheckGeneration(1));
  }

  /**
   * The exception is real: a worker that reads the generation between a login and its count can
   * return normally although no login completes after its reading.
   */
  lemma LoginMayPrecedeTheReading() returns (s: State)
    ensures Reachable(s)
    ensures |s.workers| == 2 && s.workers[1].pc == Returned(true) && s.workers[1].seenLogins == |s.logins|
  {
    s := SecondWorkerLetsGo();
    s := Go(s, Compare(1));
  }

  lemma SecondWorkerLetsGo() returns (s: State)
    ensures Reachable(s) && |s.workers| == 2 && |s.logins| == 1 && !LockLive(s) && !Critical(s.workers[0].pc)
    ensures s.workers[1].pc.Watching? && s.workers[1].pc.ok && s.workers[1].seenLogins == 1
  {
    s := SecondWorkerSkipsItsLogin(Worker(Idle, 0, 0, 0));
    s := Go(s, Tick(LOCK_TIMEOUT));
    s := Go(s, Watch(1));
  }

  /**
   * Lost counts do cost a second login: the first worker dies before the count, or the count raises
   * and it goes on to release, and the second one logs in from generation zero again.
   */
  lemma LostLoginIsRepeated(dies: bool) returns (s: State)
    ensures Reachable(s) && s.logins == [Login(0, NeverCounted), Login(0, Uncounted)]
    ensures |s.workers| == 2 && (s.workers[0].pc.Idle? <==> dies) && !Critical(s.workers[0].pc)
  {
    s := FirstCountIsLost(dies);
    s := SecondWorkerHasTheLock(s);
    s := SecondWorkerLogsInAgain(s);
  }

  lemma FirstCountIsLost(dies: bool) returns (s: State)
    ensures Reachable(s) && s.logins == [Login(0, NeverCounted)] && s.generation == 0 && s.cooldown.None?
    ensures s.now == 0 && s.lock == Some(Lock(0, LOCK_TIMEOUT)) && |s.workers| == 2
    ensures s.workers[0] == Worker(if dies then Idle else Releasing(0, false), 0, 0, 0)
    ensures s.workers[1] == Worker(Acquiring, 0, 0, 1)
  {
    s := SecondWorkerWaits(Worker(Idle, 0, 0, 0));
    if dies {
      s := Go(s, DieUncounted(0));
    } else {
      s := Go(s, CountFails(0));
    }
  }

  lemma SecondWorkerHasTheLock(lost: State) returns (s: State)
    requires Reachable(lost) && lost.now == 0 && lost.lock == Some(Lock(0, LOCK_TIMEOUT)) && |lost.workers| == 2
    requires (lost.workers[0].pc.Idle? || lost.workers[0].pc.Releasing?) && lost.workers[1] == Worker(Acquiring, 0, 0, 1)
    ensures Reachable(s) && s.logins == lost.logins && s.generation == lost.generation && s.cooldown == lost.cooldown
    ensures s.now == LOCK_TIMEOUT && |s.workers| == 2 && s.workers[0] == lost.workers[0]
    ensures s.workers[1] == Worker(Holding(lost.nextToken, LOCK_TIMEOUT), 0, 0, 1)
  {
    s := Go(lost, Tick(LOCK_TIMEOUT));
    s := Go(s, Acquire(1));
  }

  lemma SecondWorkerLogsInAgain(held: State) returns (s: State)
    requires Reachable(held) && held.logins == [Login(0, NeverCounted)] && held.generation == 0 && held.cooldown.None?
    requires held.now == LOCK_TIMEOUT && |held.workers| == 2 && (held.workers[0].pc.Idle? || held.workers[0].pc.Releasing?)
    requires held.workers[1].pc.Holding? && held.workers[1] == Worker(Holding(held.workers[1].pc.token, LOCK_TIMEOUT), 0, 0, 1)
    ensures Reachable(s) && s.logins == [Login(0, NeverCounted), Login(0, Uncounted)]
    ensures |s.workers| == 2 && s.workers[0] == held.workers[0]
  {
    s := Go(held, CheckGeneration(1));
    s := Go(s, SecondCheck(1));
    s := Go(s, StartLogin(1));
    s := Go(s, LoginSucceeds(1));
  }

  // ---- the cool-down ---------------------------------------------------------------

  lemma Power2Doubles(a: nat, b: nat)
    requires a <= b
    ensures 1 <= Power2(a) <= Power2(b)
  {
    if a < b {
      Power2Doubles(a, b - 1);
    } else if a > 0 {
      Power2Doubles(a - 1, b - 1);
    }
  }

  /** The cool-down starts at a minute, never shrinks as failures pile up, and is capped from the fifth on. */
  lemma CooldownGrowsToItsCap(failures: nat, more: nat)
    requires 0 < failures <= more
    ensures COOLDOWN_SECONDS <= CooldownSeconds(failures) <= CooldownSeconds(more) <= COOLDOWN_MAX_SECONDS
    ensures CooldownSeconds(failures) == COOLDOWN_MAX_SECONDS <==> failures >= 5
  {
    var a := if failures - 1 < 10 then failures - 1 else 10;
    var b := if more - 1 < 10 then more - 1 else 10;
    Power2Doubles(a, b);
    assert Power2(3) == 8 && Power2(4) == 16 by {
      assert Power2(2) == 4;
    }
    if failures >= 5 {
      Power2Doubles(4, a);
    } else {
      Power2Doubles(a, 3);
    }
  }
}
