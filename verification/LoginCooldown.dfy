/** What a failed login leaves behind, what a successful one clears, and that no lock is left behind. */
module LoginCooldown {
  import opened Wrappers
  import opened LoginProtocol
  import opened LoginInvariant
  import opened LoginTheorems

  /** The step is worker `w`'s own. */
  predicate StepOf(step: Step, w: nat) {
    StepOfWorker(step) && step.w == w
  }

  /** Neither death nor a failing call of worker `w` is among the steps. */
  ghost predicate Spared(steps: seq<Step>, w: nat, from: nat, to: nat) {
    forall k :: from <= k < to <= |steps| ==> !Strikes(steps[k], w)
  }

  predicate Strikes(step: Step, w: nat) {
    step == Die(w) || step == DieUncounted(w) || step == CountFails(w) || step == RedisFails(w)
  }

  /** Other workers' steps leave a worker where it is, unless it watches the lock. */
  lemma OthersDoNotMoveIt(s: State, step: Step, w: nat)
    requires Enabled(s, step) && !StepOf(step, w) && w < |s.workers|
    ensures w < |Do(s, step).workers| && (Do(s, step).workers[w] == s.workers[w] || Do(s, step).workers[w] == Touched(s.workers[w]))
  {
    if StepOfWorker(step) && !step.Acquire? && !step.Exec? {
      OrdinaryStep(s, step);
    }
  }

  // ---- a failed login starts a cool-down ------------------------------------------------

  /** Between its failed login and its cool-down. */
  predicate FailingOut(pc: Pc) {
    pc.Failed? || pc.Counted? || pc.Kept?
  }

  /** The failure was counted at step `count`, on top of those that still lived then. */
  ghost predicate CountedAt(states: seq<State>, steps: seq<Step>, n: nat, count: nat, to: nat, w: nat, failures: nat) {
    n < count < to <= |steps| < |states| && steps[count] == CountFailure(w) && failures == LiveFailures(states[count]) + 1
  }

  lemma FailingStep(s: State, step: Step, w: nat)
    requires Enabled(s, step) && w < |s.workers| && FailingOut(s.workers[w].pc) && !Strikes(step, w)
    ensures w < |Do(s, step).workers|
    ensures var was, now := s.workers[w].pc, Do(s, step).workers[w].pc;
            if step == SetCooldown(w) then was.Kept? && Do(s, step).cooldown == Some(s.now + 1000 * CooldownSeconds(was.failures))
            else FailingOut(now) && (now.Failed? ==> was.Failed?)
                 && (!now.Failed? ==> if step == CountFailure(w) then now.failures == LiveFailures(s) + 1
                                      else !was.Failed? && now.failures == was.failures)
  {
    if !StepOf(step, w) {
      OthersDoNotMoveIt(s, step, w);
    }
  }

  ghost predicate StillFailing(states: seq<State>, steps: seq<Step>, n: nat, count: nat, m: nat, w: nat) {
    && n < m <= |steps| < |states|
    && (forall k :: n < k <= m ==> w < |states[k].workers| && FailingOut(states[k].workers[w].pc))
    && var pc := states[m].workers[w].pc; !pc.Failed? ==> CountedAt(states, steps, n, count, m, w, pc.failures)
  }

  /** The failure was counted, and then the cool-down it earns was set, before anything else. */
  ghost predicate CooledDown(states: seq<State>, steps: seq<Step>, n: nat, count: nat, at: nat, m: nat, w: nat) {
    && n < count < at < m <= |steps| < |states| && steps[count] == CountFailure(w) && steps[at] == SetCooldown(w)
    && (forall k :: n < k <= at ==> w < |states[k].workers| && FailingOut(states[k].workers[w].pc))
    && states[at + 1].cooldown == Some(states[at].now + 1000 * CooldownSeconds(LiveFailures(states[count]) + 1))
  }

  lemma FailingGoesOn(states: seq<State>, steps: seq<Step>, n: nat, was: nat, m: nat, w: nat) returns (count: nat)
    requires Run(states, steps) && m < |steps| && StillFailing(states, steps, n, was, m, w) && !Strikes(steps[m], w)
    ensures if steps[m] == SetCooldown(w) then CooledDown(states, steps, n, was, m, m + 1, w)
            else StillFailing(states, steps, n, count, m + 1, w)
  {
    FailingStep(states[m], steps[m], w);
    count := if steps[m] == CountFailure(w) then m else was;
  }

  lemma FailureStarts(states: seq<State>, steps: seq<Step>, n: nat, w: nat)
    requires Run(states, steps) && n < |steps| && steps[n] == LoginFails(w, false)
    ensures StillFailing(states, steps, n, n, n + 1, w)
  {
  }

  lemma CooledDownLater(states: seq<State>, steps: seq<Step>, n: nat, count: nat, at: nat, m: nat, w: nat)
    requires CooledDown(states, steps, n, count, at, m, w) && m < |steps|
    ensures CooledDown(states, steps, n, count, at, m + 1, w)
  {
  }

  /** Still on its way to the cool-down, or past it. */
  ghost predicate Followed(states: seq<State>, steps: seq<Step>, n: nat, count: nat, at: nat, m: nat, w: nat) {
    StillFailing(states, steps, n, count, m, w) || CooledDown(states, steps, n, count, at, m, w)
  }

  lemma FollowedOn(states: seq<State>, steps: seq<Step>, n: nat, was: nat, had: nat, m: nat, w: nat) returns (count: nat, at: nat)
    requires Run(states, steps) && m < |steps| && Followed(states, steps, n, was, had, m, w) && !Strikes(steps[m], w)
    ensures Followed(states, steps, n, count, at, m + 1, w)
  {
    if StillFailing(states, steps, n, was, m, w) {
      var next := FailingGoesOn(states, steps, n, was, m, w);
      count := if steps[m] == SetCooldown(w) then was else next;
      at := m;
    } else {
      count, at := was, had;
      CooledDownLater(states, steps, n, was, had, m, w);
    }
  }

  lemma {:induction false} FailureIsFollowed(states: seq<State>, steps: seq<Step>, n: nat, m: nat, w: nat) returns (count: nat, at: nat)
    requires Run(states, steps) && n < m <= |steps| && steps[n] == LoginFails(w, false) && Spared(steps, w, n + 1, m)
    ensures Followed(states, steps, n, count, at, m, w)
    decreases m
  {
    if m == n + 1 {
      count, at := n, n;
      FailureStarts(states, steps, n, w);
    } else {
      var k := m - 1;
      assert !Strikes(steps[k], w);
      count, at := FailureIsFollowed(states, steps, n, k, w);
      count, at := FollowedOn(states, steps, n, count, at, k, w);
    }
  }

  /** These steps write the cool-down key. */
  predicate WritesCooldown(step: Step) {
    step.SetCooldown? || step.ClearCooldown? || step.ResetSession?
  }

  ghost predicate CooldownUntouched(steps: seq<Step>, from: nat, to: nat) {
    forall k :: from <= k < to <= |steps| ==> !WritesCooldown(steps[k])
  }

  lemma OthersKeepTheCooldown(s: State, step: Step)
    requires Enabled(s, step) && !WritesCooldown(step)
    ensures Do(s, step).cooldown == s.cooldown && s.now <= Do(s, step).now
  {
  }

  lemma {:induction false} CooldownStays(states: seq<State>, steps: seq<Step>, from: nat, to: nat)
    requires Run(states, steps) && from <= to <= |steps| && CooldownUntouched(steps, from, to)
    ensures states[to].cooldown == states[from].cooldown
  {
    if from < to {
      assert !WritesCooldown(steps[to - 1]);
      CooldownStays(states, steps, from, to - 1);
      OthersKeepTheCooldown(states[to - 1], steps[to - 1]);
    }
  }

  /**
   * A login that fails. Its worker, if it neither dies nor has a call fail, counts the failure and
   * sets a cool-down before it gives up the lock; from the failure until that cool-down has run
   * out no login starts, unless a success, a reset or another cool-down replaces it.
   */
  lemma FailedLoginKeepsEveryoneOut(states: seq<State>, steps: seq<Step>, n: nat, m: nat, w: nat) returns (count: nat, at: nat)
    requires TimelyRun(states, steps) && n < m <= |steps| && steps[n] == LoginFails(w, false) && Spared(steps, w, n + 1, m)
    requires w < |states[m].workers| && !FailingOut(states[m].workers[w].pc)
    ensures CooledDown(states, steps, n, count, at, m, w)
    ensures forall k :: n < k <= at ==> !steps[k].StartLogin?
    ensures forall k :: at < k < |steps| && steps[k].StartLogin? && CooldownUntouched(steps, at + 1, k) ==>
              states[k].now >= states[at].now + 1000 * CooldownSeconds(LiveFailures(states[count]) + 1)
  {
    count, at := FailureIsFollowed(states, steps, n, m, w);
    forall k | n < k <= at ensures !steps[k].StartLogin? {
      NobodyLogsInBesides(states, steps, k, w);
    }
    forall k | at < k < |steps| && steps[k].StartLogin? && CooldownUntouched(steps, at + 1, k)
      ensures states[k].now >= states[at].now + 1000 * CooldownSeconds(LiveFailures(states[count]) + 1)
    {
      CooldownStays(states, steps, at + 1, k);
      NoLoginStartsDuringCooldown(states, steps, k);
    }
  }

  lemma NobodyLogsInBesides(states: seq<State>, steps: seq<Step>, k: nat, w: nat)
    requires TimelyRun(states, steps) && k < |steps| && w < |states[k].workers| && FailingOut(states[k].workers[w].pc)
    ensures !steps[k].StartLogin?
  {
    if steps[k].StartLogin? {
      InvThroughout(states, steps, k);
      OneCriticalWorker(states[k], w, steps[k].w);
    }
  }

  /** On its way out, or out. */
  predicate LeavingQuietly(pc: Pc) {
    pc.Releasing? || pc.Watching? || pc.Matched? || pc.Returned? || pc.Idle?
  }

  lemma LeavingStep(s: State, step: Step, w: nat)
    requires Enabled(s, step) && w < |s.workers| && LeavingQuietly(s.workers[w].pc) && step != ReadGeneration(w)
    ensures w < |Do(s, step).workers| && LeavingQuietly(Do(s, step).workers[w].pc)
    ensures StepOf(step, w) ==> Do(s, step).cooldown == s.cooldown && Do(s, step).failures == s.failures
  {
    if !StepOf(step, w) {
      OthersDoNotMoveIt(s, step, w);
    }
  }

  lemma {:induction false} ExemptWorkerLeaves(states: seq<State>, steps: seq<Step>, n: nat, m: nat, w: nat)
    requires Run(states, steps) && n < m <= |steps| && steps[n] == LoginFails(w, true)
    requires forall k :: n < k < m ==> steps[k] != ReadGeneration(w)
    ensures w < |states[m].workers| && LeavingQuietly(states[m].workers[w].pc)
  {
    if m > n + 1 {
      ExemptWorkerLeaves(states, steps, n, m - 1, w);
      LeavingStep(states[m - 1], steps[m - 1], w);
    }
  }

  /** A login that failed after sending an SMS code leaves cool-down and failure count alone, at once and on its way out. */
  lemma ExemptFailureLeavesNoTrace(states: seq<State>, steps: seq<Step>, n: nat, m: nat, w: nat)
    requires Run(states, steps) && n <= m < |steps| && steps[n] == LoginFails(w, true) && StepOf(steps[m], w)
    requires forall k :: n < k <= m ==> steps[k] != ReadGeneration(w)
    ensures states[m + 1].cooldown == states[m].cooldown && states[m + 1].failures == states[m].failures
  {
    if n < m {
      ExemptWorkerLeaves(states, steps, n, m, w);
      LeavingStep(states[m], steps[m], w);
    }
  }

  // ---- a successful login clears the record ---------------------------------------------

  predicate Succeeding(pc: Pc) {
    pc.LoggedIn? || pc.Bumped?
  }

  lemma SucceedingStep(s: State, step: Step, w: nat)
    requires Enabled(s, step) && w < |s.workers| && Succeeding(s.workers[w].pc) && !Strikes(step, w)
    ensures w < |Do(s, step).workers|
    ensures var was, now := s.workers[w].pc, Do(s, step).workers[w].pc;
            if step == ClearCooldown(w) then was.Bumped? && now.Releasing? && now.ok && Do(s, step).cooldown.None? && Do(s, step).failures.None?
            else Succeeding(now) && (now.Bumped? ==> was.Bumped? || (step == BumpGeneration(w) && Do(s, step).generation == s.generation + 1))
  {
    if !StepOf(step, w) {
      OthersDoNotMoveIt(s, step, w);
    }
  }

  ghost predicate BumpedAt(states: seq<State>, steps: seq<Step>, n: nat, bump: nat, to: nat, w: nat) {
    n < bump < to <= |steps| < |states| && steps[bump] == BumpGeneration(w) && states[bump + 1].generation == states[bump].generation + 1
  }

  ghost predicate StillSucceeding(states: seq<State>, steps: seq<Step>, n: nat, bump: nat, m: nat, w: nat) {
    && n < m <= |steps| < |states|
    && (forall k :: n < k <= m ==> w < |states[k].workers| && Succeeding(states[k].workers[w].pc))
    && (states[m].workers[w].pc.Bumped? ==> BumpedAt(states, steps, n, bump, m, w))
  }

  ghost predicate RecordCleared(states: seq<State>, steps: seq<Step>, n: nat, bump: nat, clear: nat, m: nat, w: nat) {
    && bump < clear < m && BumpedAt(states, steps, n, bump, m, w) && steps[clear] == ClearCooldown(w)
    && (forall k :: n < k <= clear ==> w < |states[k].workers| && Succeeding(states[k].workers[w].pc))
    && states[clear + 1].cooldown.None? && states[clear + 1].failures.None?
    && w < |states[clear + 1].workers| && states[clear + 1].workers[w].pc.Releasing? && states[clear + 1].workers[w].pc.ok
  }

  lemma SuccessStarts(states: seq<State>, steps: seq<Step>, n: nat, w: nat)
    requires Run(states, steps) && n < |steps| && steps[n] == LoginSucceeds(w)
    ensures StillSucceeding(states, steps, n, n, n + 1, w)
  {
  }

  lemma SuccessGoesOn(states: seq<State>, steps: seq<Step>, n: nat, was: nat, m: nat, w: nat) returns (bump: nat)
    requires Run(states, steps) && m < |steps| && StillSucceeding(states, steps, n, was, m, w) && !Strikes(steps[m], w)
    ensures if steps[m] == ClearCooldown(w) then RecordCleared(states, steps, n, was, m, m + 1, w)
            else StillSucceeding(states, steps, n, bump, m + 1, w)
  {
    SucceedingStep(states[m], steps[m], w);
    bump := if steps[m] == BumpGeneration(w) then m else was;
  }

  lemma ClearedLater(states: seq<State>, steps: seq<Step>, n: nat, bump: nat, clear: nat, m: nat, w: nat)
    requires RecordCleared(states, steps, n, bump, clear, m, w) && m < |steps|
    ensures RecordCleared(states, steps, n, bump, clear, m + 1, w)
  {
  }

  ghost predicate Settled(states: seq<State>, steps: seq<Step>, n: nat, bump: nat, clear: nat, m: nat, w: nat) {
    StillSucceeding(states, steps, n, bump, m, w) || RecordCleared(states, steps, n, bump, clear, m, w)
  }

  lemma SettledOn(states: seq<State>, steps: seq<Step>, n: nat, was: nat, had: nat, m: nat, w: nat) returns (bump: nat, clear: nat)
    requires Run(states, steps) && m < |steps| && Settled(states, steps, n, was, had, m, w) && !Strikes(steps[m], w)
    ensures Settled(states, steps, n, bump, clear, m + 1, w)
  {
    if StillSucceeding(states, steps, n, was, m, w) {
      var next := SuccessGoesOn(states, steps, n, was, m, w);
      bump := if steps[m] == ClearCooldown(w) then was else next;
      clear := m;
    } else {
      bump, clear := was, had;
      ClearedLater(states, steps, n, was, had, m, w);
    }
  }

  lemma {:induction false} SuccessIsFollowed(states: seq<State>, steps: seq<Step>, n: nat, m: nat, w: nat) returns (bump: nat, clear: nat)
    requires Run(states, steps) && n < m <= |steps| && steps[n] == LoginSucceeds(w) && Spared(steps, w, n + 1, m)
    ensures Settled(states, steps, n, bump, clear, m, w)
    decreases m
  {
    if m == n + 1 {
      bump, clear := n, n;
      SuccessStarts(states, steps, n, w);
    } else {
      var k := m - 1;
      assert !Strikes(steps[k], w);
      bump, clear := SuccessIsFollowed(states, steps, n, k, w);
      bump, clear := SettledOn(states, steps, n, bump, clear, k, w);
    }
  }

  /**
   * A login that succeeds. Its worker, if it neither dies nor has a call fail, moves the generation
   * on and clears cool-down and failures before it gives up the lock, and then returns normally.
   */
  lemma SuccessClearsTheRecord(states: seq<State>, steps: seq<Step>, n: nat, m: nat, w: nat) returns (bump: nat, clear: nat)
    requires Run(states, steps) && n < m <= |steps| && steps[n] == LoginSucceeds(w) && Spared(steps, w, n + 1, m)
    requires w < |states[m].workers| && !Succeeding(states[m].workers[w].pc)
    ensures RecordCleared(states, steps, n, bump, clear, m, w)
  {
    bump, clear := SuccessIsFollowed(states, steps, n, m, w);
  }

  // ---- counting failures ------------------------------------------------------------------

  predicate WritesFailures(step: Step) {
    step.CountFailure? || step.KeepFailures? || step.ClearCooldown? || step.ResetSession?
  }

  /** One failure more; a count that still lives keeps its expiry until it is set anew. */
  lemma CountingAddsOne(s: State, w: nat)
    requires Enabled(s, CountFailure(w))
    ensures LiveFailures(Do(s, CountFailure(w))) == LiveFailures(s) + 1
    ensures Do(s, CountFailure(w)).failures
         == Some(Counter(LiveFailures(s) + 1, if LiveFailures(s) > 0 then s.failures.value.expires else None))
  {
  }

  lemma OthersKeepFailures(s: State, step: Step)
    requires Enabled(s, step) && !WritesFailures(step)
    ensures Do(s, step).failures == s.failures
  {
  }

  lemma {:induction false} FailuresStay(states: seq<State>, steps: seq<Step>, from: nat, to: nat)
    requires Run(states, steps) && from <= to <= |steps| && forall k :: from <= k < to ==> !WritesFailures(steps[k])
    ensures states[to].failures == states[from].failures
  {
    if from < to {
      FailuresStay(states, steps, from, to - 1);
      OthersKeepFailures(states[to - 1], steps[to - 1]);
    }
  }

  /** A kept failure count lasts one hour, unless another failure, a success or a reset comes first. */
  lemma FailuresAreRememberedForAnHour(states: seq<State>, steps: seq<Step>, n: nat, m: nat, w: nat)
    requires Run(states, steps) && n < m <= |steps| && steps[n] == KeepFailures(w) && LiveFailures(states[n]) > 0
    requires forall k :: n < k < m ==> !WritesFailures(steps[k])
    ensures LiveFailures(states[m]) == if states[m].now < states[n].now + 3_600_000 then LiveFailures(states[n]) else 0
  {
    FailuresStay(states, steps, n + 1, m);
  }

  /** A minute after the first failure, twice as long after each further one, never more than a quarter of an hour. */
  lemma CooldownDoublesToItsCap(failures: nat)
    requires failures > 0
    ensures CooldownSeconds(1) == 60
    ensures CooldownSeconds(failures + 1) == if 2 * CooldownSeconds(failures) < 900 then 2 * CooldownSeconds(failures) else 900
  {
    assert Power2(0) == 1 && Power2(1) == 2 && Power2(2) == 4 && Power2(3) == 8 && Power2(4) == 16;
    if failures >= 5 {
      CooldownGrowsToItsCap(failures, failures + 1);
    }
  }

  // ---- the checks --------------------------------------------------------------------------

  /**
   * What the checks decide. A refused worker queues for the lock exactly when no cool-down runs. The
   * holder goes on exactly when nobody logged in since it read the generation and no cool-down
   * runs; otherwise it gives up the lock, normally in the first case, and fails in the second. A
   * worker that waits too long for the lock fails.
   */
  lemma ChecksDecide(s: State, step: Step)
    requires Enabled(s, step) && (step.FirstCheck? || step.GiveUp? || step.CheckGeneration? || step.SecondCheck?)
    ensures step.w < |Do(s, step).workers|
    ensures var was, now := s.workers[step.w], Do(s, step).workers[step.w];
            if step.GiveUp? then now.pc == Returned(false)
            else if step.FirstCheck? then now.pc == if s.cooldown.Some? && s.now < s.cooldown.value then Returned(false) else Acquiring
            else if step.CheckGeneration? then
              now.pc == if s.generation == was.seen then Current(was.pc.token, was.pc.since) else Releasing(was.pc.token, true)
            else now.pc == if s.cooldown.Some? && s.now < s.cooldown.value then Releasing(was.pc.token, false) else Cleared(was.pc.token, was.pc.since)
  {
  }

  /** A reset forgets cool-down and failures, and disturbs no worker and no lock. */
  lemma ResetForgets(s: State)
    ensures var s' := Do(s, ResetSession);
            s' == s.(cooldown := None, failures := None) && LiveFailures(s') == 0
  {
  }

  /** A worker's reading is the generation at its latest read. */
  lemma {:induction false} SeenWasRead(states: seq<State>, steps: seq<Step>, n: nat, w: nat) returns (m: nat)
    requires Run(states, steps) && n < |states| && w < |states[n].workers| && !states[n].workers[w].pc.Idle?
    ensures m < n <= |steps| && steps[m] == ReadGeneration(w) && states[n].workers[w].seen == states[m].generation
    ensures forall k :: m < k < n ==> steps[k] != ReadGeneration(w)
  {
    assert n > 0;
    var k := n - 1;
    assert Enabled(states[k], steps[k]) && states[k + 1] == Do(states[k], steps[k]);
    SeenStep(states[k], steps[k], w);
    m := k;
    if steps[k] != ReadGeneration(w) {
      m := SeenWasRead(states, steps, k, w);
    }
  }

  lemma SeenStep(s: State, step: Step, w: nat)
    requires Enabled(s, step) && w < |Do(s, step).workers| && !Do(s, step).workers[w].pc.Idle?
    ensures w < |s.workers|
    ensures var was, now := s.workers[w], Do(s, step).workers[w];
            if step == ReadGeneration(w) then now.seen == s.generation else !was.pc.Idle? && now.seen == was.seen
  {
    assert |Do(s, step).workers| == |s.workers|;
    if !StepOf(step, w) {
      OthersDoNotMoveIt(s, step, w);
    }
  }

  /** A successful login is recorded with the generation its worker had read, and waits to be counted. */
  lemma LoginIsRecordedWithItsReading(states: seq<State>, steps: seq<Step>, n: nat, w: nat) returns (m: nat)
    requires Run(states, steps) && n < |steps| && steps[n] == LoginSucceeds(w)
    ensures m < n && steps[m] == ReadGeneration(w) && forall k :: m < k < n ==> steps[k] != ReadGeneration(w)
    ensures states[n + 1].logins == states[n].logins + [Login(states[m].generation, Uncounted)]
  {
    m := SeenWasRead(states, steps, n, w);
  }

  /** From a refused call to the login it leads to. */
  predicate AfterRefusal(pc: Pc) {
    pc.Refused? || pc.Acquiring? || pc.Holding? || pc.Current? || pc.Cleared?
  }

  lemma RefusalStep(s: State, step: Step, w: nat)
    requires Enabled(s, step) && w < |Do(s, step).workers| && AfterRefusal(Do(s, step).workers[w].pc)
    ensures w < |s.workers| && step != ReadGeneration(w) && (AfterRefusal(s.workers[w].pc) || step == CallRefused(w))
  {
    assert |Do(s, step).workers| == |s.workers|;
    if !StepOf(step, w) {
      OthersDoNotMoveIt(s, step, w);
    }
  }

  lemma {:induction false} RefusedBefore(states: seq<State>, steps: seq<Step>, n: nat, w: nat) returns (m: nat)
    requires Run(states, steps) && n < |states| && w < |states[n].workers| && AfterRefusal(states[n].workers[w].pc)
    ensures m < n <= |steps| && steps[m] == CallRefused(w) && forall k :: m < k < n ==> steps[k] != ReadGeneration(w)
  {
    assert n > 0;
    var k := n - 1;
    assert Enabled(states[k], steps[k]) && states[k + 1] == Do(states[k], steps[k]);
    RefusalStep(states[k], steps[k], w);
    m := k;
    if AfterRefusal(states[k].workers[w].pc) {
      m := RefusedBefore(states, steps, k, w);
    }
  }

  /** A worker logs in only because the provider refused the very call it was making. */
  lemma OnlyRefusedWorkersLogIn(states: seq<State>, steps: seq<Step>, n: nat, w: nat) returns (m: nat)
    requires Run(states, steps) && n < |steps| && steps[n] == StartLogin(w)
    ensures m < n && steps[m] == CallRefused(w) && forall k :: m < k < n ==> steps[k] != ReadGeneration(w)
  {
    m := RefusedBefore(states, steps, n, w);
  }

  // ---- no lock is left behind ----------------------------------------------------------------

  predicate IsReleasing(pc: Pc) {
    pc.Releasing? || pc.Watching? || pc.Matched?
  }

  predicate Dirty(pc: Pc) {
    (pc.Watching? || pc.Matched?) && pc.dirty
  }

  /** The worker goes away without releasing: it dies, or a call of its release fails. */
  predicate Abandons(s: State, step: Step)
    requires Enabled(s, step)
  {
    step.Die? || step.DieUncounted? || (step.RedisFails? && IsReleasing(s.workers[step.w].pc))
  }

  predicate Owns(s: State, i: nat) {
    && s.lock.Some? && i < |s.workers| && HasToken(s.workers[i].pc) && s.workers[i].pc.token == s.lock.value.token
  }

  /** A live lock has an owner who will release it, and a watcher that saw a write no longer owns the lock. */
  ghost predicate Attended(s: State) {
    && (LockLive(s) ==> exists i: nat :: Owns(s, i))
    && (forall i :: 0 <= i < |s.workers| && Dirty(s.workers[i].pc) ==> !Owns(s, i))
  }

  /** A worker's ordinary step: whoever owned a live lock still does, and no watcher is spoilt. */
  lemma OrdinaryStepKeepsOwner(s: State, step: Step, i: nat)
    requires Enabled(s, step) && StepOfWorker(step) && !step.Acquire? && !step.Exec? && !Abandons(s, step)
    requires Owns(s, i) && LockLive(s)
    ensures Owns(Do(s, step), i)
  {
    OrdinaryStep(s, step);
  }

  lemma OrdinaryStepSpoilsNobody(s: State, step: Step, i: nat)
    requires Enabled(s, step) && StepOfWorker(step) && !step.Acquire? && !step.Exec?
    requires i < |Do(s, step).workers| && Dirty(Do(s, step).workers[i].pc)
    ensures i < |s.workers| && Dirty(s.workers[i].pc) && Do(s, step).workers[i].pc.token == s.workers[i].pc.token
  {
    OrdinaryStep(s, step);
  }

  lemma OrdinaryStepKeepsAttended(s: State, step: Step)
    requires Attended(s) && Enabled(s, step) && StepOfWorker(step) && !step.Acquire? && !step.Exec? && !Abandons(s, step)
    ensures Attended(Do(s, step))
  {
    var s' := Do(s, step);
    OrdinaryStep(s, step);
    OrdinaryStepTakesNoTime(s, step);
    if LockLive(s') {
      var i: nat :| Owns(s, i);
      OrdinaryStepKeepsOwner(s, step, i);
    }
    forall i | 0 <= i < |s'.workers| && Dirty(s'.workers[i].pc) ensures !Owns(s', i) {
      OrdinaryStepSpoilsNobody(s, step, i);
    }
  }

  lemma OrdinaryStepTakesNoTime(s: State, step: Step)
    requires Enabled(s, step) && StepOfWorker(step)
    ensures Do(s, step).now == s.now
  {
  }

  lemma AcquireKeepsAttended(s: State, w: nat)
    requires TokensSound(s) && Enabled(s, Acquire(w))
    ensures Attended(Do(s, Acquire(w)))
  {
    var s' := Do(s, Acquire(w));
    assert Owns(s', w);
    forall i | 0 <= i < |s'.workers| && Dirty(s'.workers[i].pc) ensures !Owns(s', i) {
      assert s'.workers[i] == Touched(s.workers[i]);
    }
  }

  lemma ExecKeepsAttended(s: State, w: nat)
    requires TokensSound(s) && Attended(s) && Enabled(s, Exec(w))
    ensures Attended(Do(s, Exec(w)))
  {
    var s' := Do(s, Exec(w));
    if s.workers[w].pc.dirty {
      if LockLive(s') {
        var i: nat :| Owns(s, i);
        assert i != w && Owns(s', i);
      }
      forall i | 0 <= i < |s'.workers| && Dirty(s'.workers[i].pc) ensures !Owns(s', i) {
        assert s'.workers[i] == s.workers[i];
      }
    }
  }

  lemma StepKeepsAttended(s: State, step: Step)
    requires TokensSound(s) && Attended(s) && Enabled(s, step) && !Abandons(s, step)
    ensures Attended(Do(s, step))
  {
    if step.Acquire? {
      AcquireKeepsAttended(s, step.w);
    } else if step.Exec? {
      ExecKeepsAttended(s, step.w);
    } else if StepOfWorker(step) {
      OrdinaryStepKeepsAttended(s, step);
    } else {
      StillStepKeepsAttended(s, step);
    }
  }

  lemma StillStepKeepsAttended(s: State, step: Step)
    requires Attended(s) && Enabled(s, step) && !StepOfWorker(step)
    ensures Attended(Do(s, step))
  {
    var s' := Do(s, step);
    if LockLive(s') {
      var i: nat :| Owns(s, i);
      assert Owns(s', i);
    }
  }

  /**
   * Whatever fails inside the critical section, the lock is given up: while no worker dies and no
   * call of a release fails, a lock that has not timed out belongs to a worker that is still to
   * release it.
   */
  lemma {:induction false} NoLockIsLeftBehind(states: seq<State>, steps: seq<Step>, n: nat)
    requires Run(states, steps) && n < |states| && forall m :: 0 <= m < n ==> !Abandons(states[m], steps[m])
    ensures LockLive(states[n]) ==> exists i: nat :: Owns(states[n], i)
    ensures Attended(states[n])
  {
    if n > 0 {
      NoLockIsLeftBehind(states, steps, n - 1);
      TokensSoundThroughout(states, steps, n - 1);
      StepKeepsAttended(states[n - 1], steps[n - 1]);
    }
  }
}
