/** Why a job ended as it did: each finish, and each job reaped, is traced back to the steps that caused it. */
module JobCauses {
  import opened Wrappers
  import opened Sums
  import opened Jobs
  import opened JobRuns

  // ---- where a running job, a worker and a reaper come from -------------------------------

  /** At step `m`, process `p` takes job `id` from the queue. */
  ghost predicate Takes(states: seq<State>, steps: seq<Step>, m: nat, p: nat, id: JobId) {
    && m < |steps| < |states| && steps[m] == Take(p)
    && p < |states[m].procs| && states[m].procs[p] == Delivered(id)
    && id < |states[m].jobs| && states[m].jobs[id].status.Queued?
  }

  /** At step `m`, job `id` is created. */
  ghost predicate Creates(states: seq<State>, steps: seq<Step>, m: nat, id: JobId) {
    m < |steps| < |states| && steps[m].Create? && |states[m].jobs| == id
  }

  /** At step `m`, reaper `p` lists its jobs. */
  ghost predicate Lists(states: seq<State>, steps: seq<Step>, m: nat, p: nat) {
    m < |steps| < |states| && steps[m].Scan? && |states[m].procs| == p
  }

  /** Listed by reaper `p` at step `m`, with the message it carries. */
  ghost predicate Listed(states: seq<State>, steps: seq<Step>, m: nat, p: nat, left: seq<(JobId, Status)>, payload: Payload) {
    Lists(states, steps, m, p) && steps[m].payload == payload && forall x :: x in left ==> x in steps[m].stuck
  }

  /** One step leaves the creation of a job alone; a start time is that of the step taking it. */
  lemma StepKeepsTimes(s: State, step: Step, id: JobId)
    requires JobsSound(s) && Enabled(s, step) && id < |Do(s, step).jobs|
    ensures var j := Do(s, step).jobs[id];
            if id >= |s.jobs| then step.Create? && id == |s.jobs| && j.created == s.now && j.kind == step.kind && j.started.None?
            else j.created == s.jobs[id].created && j.kind == s.jobs[id].kind
                 && (j.started == s.jobs[id].started
                     || (step.Take? && s.procs[step.p] == Delivered(id) && s.jobs[id].status.Queued? && j.kind.Refresh? && j.started == Some(s.now)))
  {
    StepAdvancesJobs(s, step);
  }

  lemma {:induction false} JobWasCreated(states: seq<State>, steps: seq<Step>, n: nat, id: JobId) returns (m: nat)
    requires Run(states, steps) && n < |states| && id < |states[n].jobs|
    ensures m < n && Creates(states, steps, m, id) && states[m].now == states[n].jobs[id].created
    ensures steps[m].kind == states[n].jobs[id].kind
  {
    JobsSoundThroughout(states, steps, n - 1);
    StepKeepsTimes(states[n - 1], steps[n - 1], id);
    if id < |states[n - 1].jobs| {
      m := JobWasCreated(states, steps, n - 1, id);
    } else {
      m := n - 1;
    }
  }

  lemma {:induction false} JobWasTaken(states: seq<State>, steps: seq<Step>, n: nat, id: JobId) returns (m: nat, p: nat)
    requires Run(states, steps) && n < |states| && id < |states[n].jobs| && states[n].jobs[id].started.Some?
    ensures m < n && Takes(states, steps, m, p, id) && states[m].now == states[n].jobs[id].started.value
    ensures states[n].jobs[id].kind.Refresh?
  {
    JobsSoundThroughout(states, steps, n - 1);
    StepKeepsTimes(states[n - 1], steps[n - 1], id);
    if states[n - 1].jobs[id].started == states[n].jobs[id].started {
      m, p := JobWasTaken(states, steps, n - 1, id);
    } else {
      m, p := n - 1, steps[n - 1].p;
    }
  }

  lemma StepKeepsExecuting(s: State, step: Step, p: nat, id: JobId)
    requires Enabled(s, step) && p < |Do(s, step).procs| && Do(s, step).procs[p] == Executing(id)
    ensures p < |s.procs|
    ensures s.procs[p] == Executing(id)
            || (step == Take(p) && s.procs[p] == Delivered(id) && id < |s.jobs| && s.jobs[id].status.Queued?)
  {
  }

  lemma {:induction false} ExecutorTookIt(states: seq<State>, steps: seq<Step>, n: nat, p: nat, id: JobId) returns (m: nat)
    requires Run(states, steps) && n < |states| && p < |states[n].procs| && states[n].procs[p] == Executing(id)
    ensures m < n && Takes(states, steps, m, p, id)
  {
    StepKeepsExecuting(states[n - 1], steps[n - 1], p, id);
    if states[n - 1].procs[p] == Executing(id) {
      m := ExecutorTookIt(states, steps, n - 1, p, id);
    } else {
      m := n - 1;
    }
  }

  lemma StepKeepsReaping(s: State, step: Step, p: nat)
    requires Enabled(s, step) && p < |Do(s, step).procs| && Do(s, step).procs[p].Reaping?
    ensures var proc := Do(s, step).procs[p];
            if p >= |s.procs| then step.Scan? && p == |s.procs| && proc.stuck == step.stuck && proc.payload == step.payload
            else s.procs[p].Reaping? && proc.payload == s.procs[p].payload && forall x :: x in proc.stuck ==> x in s.procs[p].stuck
  {
  }

  lemma {:induction false} ReaperListedIt(states: seq<State>, steps: seq<Step>, n: nat, p: nat) returns (m: nat)
    requires Run(states, steps) && n < |states| && p < |states[n].procs| && states[n].procs[p].Reaping?
    ensures m < n && Listed(states, steps, m, p, states[n].procs[p].stuck, states[n].procs[p].payload)
  {
    StepKeepsReaping(states[n - 1], steps[n - 1], p);
    if p < |states[n - 1].procs| {
      m := ReaperListedIt(states, steps, n - 1, p);
    } else {
      m := n - 1;
    }
  }

  // ---- jobs that are reaped were stuck ------------------------------------------------------

  /** At step `n`, reaper `p` fails job `id`, which it saw as `status`. */
  ghost predicate Reaps(states: seq<State>, steps: seq<Step>, n: nat, p: nat, id: JobId, status: Status) {
    && n < |steps| < |states| && steps[n] == ReapOne(p) && Enabled(states[n], steps[n])
    && states[n].procs[p].stuck[0].0 == id && states[n].jobs[id].status == status
    && id < |states[n + 1].jobs| && states[n + 1].jobs[id] != states[n].jobs[id]
  }

  /** The scan that listed the job a reaper is about to fail, and what the job was then. */
  lemma ReapedJobWasListed(states: seq<State>, steps: seq<Step>, n: nat, p: nat, id: JobId, status: Status) returns (scan: nat)
    requires Run(states, steps) && Reaps(states, steps, n, p, id, status)
    ensures scan < n && Lists(states, steps, scan, p) && id < |states[scan].jobs|
    ensures Stuck(states[scan].jobs[id], Refresh, states[scan].now - steps[scan].olderThan) && states[scan].jobs[id].status == status
  {
    scan := ReaperListedIt(states, steps, n, p);
    assert states[n].procs[p].stuck[0] in steps[scan].stuck;
    assert Enabled(states[scan], steps[scan]);
    var i :| 0 <= i < |steps[scan].stuck| && steps[scan].stuck[i] == states[n].procs[p].stuck[0];
    assert states[n].procs[p].stuck[0].1 == status;
  }

  /**
   * A running job is reaped only if its reaper listed it more than its `olderThan` after the one
   * step in which a worker took it.
   */
  lemma ReapedRunningJobStartedLongBefore(states: seq<State>, steps: seq<Step>, n: nat, p: nat, id: JobId)
    returns (take: nat, q: nat, scan: nat)
    requires Run(states, steps) && Reaps(states, steps, n, p, id, Running)
    ensures take < scan < n && Takes(states, steps, take, q, id) && Lists(states, steps, scan, p)
    ensures states[take].now + steps[scan].olderThan < states[scan].now
  {
    scan := ReapedJobWasListed(states, steps, n, p, id, Running);
    take, q := JobWasTaken(states, steps, scan, id);
  }

  /** A queued job is reaped only if its reaper listed it more than its `olderThan` after it was created. */
  lemma ReapedQueuedJobWasCreatedLongBefore(states: seq<State>, steps: seq<Step>, n: nat, p: nat, id: JobId)
    returns (create: nat, scan: nat)
    requires Run(states, steps) && Reaps(states, steps, n, p, id, Queued)
    ensures create < scan < n && Creates(states, steps, create, id) && Lists(states, steps, scan, p)
    ensures states[create].now + steps[scan].olderThan < states[scan].now
  {
    scan := ReapedJobWasListed(states, steps, n, p, id, Queued);
    create := JobWasCreated(states, steps, scan, id);
  }

  /** A reaper fails nothing but running and queued refresh jobs, so these two are all. */
  lemma OnlyOpenJobsAreReaped(states: seq<State>, steps: seq<Step>, n: nat, p: nat, id: JobId, status: Status)
    requires Run(states, steps) && Reaps(states, steps, n, p, id, status)
    ensures status.Running? || status.Queued?
    ensures states[n].jobs[id].kind.Refresh?
    ensures states[n + 1].jobs[id] == states[n].jobs[id].(
              status := Failed, result := Some(states[n].procs[p].payload), finished := Some(states[n].now))
  {
    var scan := ReapedJobWasListed(states, steps, n, p, id, status);
    KindStays(states, steps, scan, n, id);
  }

  lemma {:induction false} KindStays(states: seq<State>, steps: seq<Step>, m: nat, n: nat, id: JobId)
    requires Run(states, steps) && m <= n < |states| && id < |states[m].jobs|
    ensures id < |states[n].jobs| && states[n].jobs[id].kind == states[m].jobs[id].kind
  {
    if m < n {
      KindStays(states, steps, m, n - 1, id);
      JobsSoundThroughout(states, steps, n - 1);
      StepAdvancesJobs(states[n - 1], steps[n - 1]);
      StepKeepsTimes(states[n - 1], steps[n - 1], id);
    }
  }

  // ---- how a job came to its status and its result --------------------------------------------

  /** Step `m` finishes job `id`. */
  ghost predicate Finishes(states: seq<State>, steps: seq<Step>, m: nat, id: JobId) {
    && m < |steps| < |states| && id < |states[m].jobs| && id < |states[m + 1].jobs|
    && !Finished(states[m].jobs[id]) && Finished(states[m + 1].jobs[id])
  }

  lemma {:induction false} SomeStepFinishedIt(states: seq<State>, steps: seq<Step>, n: nat, id: JobId) returns (m: nat)
    requires Run(states, steps) && n < |states| && id < |states[n].jobs| && Finished(states[n].jobs[id])
    ensures m < n && Finishes(states, steps, m, id) && states[m + 1].jobs[id] == states[n].jobs[id]
  {
    JobsSoundThroughout(states, steps, n - 1);
    StepAdvancesJobs(states[n - 1], steps[n - 1]);
    StepKeepsTimes(states[n - 1], steps[n - 1], id);
    if id < |states[n - 1].jobs| && Finished(states[n - 1].jobs[id]) {
      m := SomeStepFinishedIt(states, steps, n - 1, id);
    } else {
      m := n - 1;
      assert id < |states[m].jobs|;
    }
  }

  /** What the step that finishes a job stores: status and result are those the step came with. */
  lemma FinishingStores(s: State, step: Step, id: JobId)
    requires JobsSound(s) && Enabled(s, step) && id < |s.jobs| && !Finished(s.jobs[id])
    requires id < |Do(s, step).jobs| && Finished(Do(s, step).jobs[id])
    ensures step.Complete? || step.ReapOne? || step.CancelQueued? || step.EnqueueFails?
    ensures var j := Do(s, step).jobs[id];
            && j == s.jobs[id].(status := j.status, result := j.result, finished := Some(s.now))
            && match step
               case Complete(p, ok, result) => s.procs[p] == Executing(id) && j.status == (if ok then Done else Failed) && j.result == Some(result)
               case CancelQueued(job, result) => job == id && s.jobs[id].status.Queued? && j.status.Failed? && j.result == Some(result)
               case EnqueueFails(job, result) => job == id && j.status.Failed? && j.result == Some(result)
               case ReapOne(p) => s.procs[p].stuck[0].0 == id && j.status.Failed? && j.result == Some(s.procs[p].payload)
               case _ => true
  {
  }

  /** A job is done only by the worker that took it, and then stores what that worker computed. */
  lemma DoneByTheWorkerThatTookIt(states: seq<State>, steps: seq<Step>, n: nat, id: JobId) returns (take: nat, m: nat, p: nat)
    requires Run(states, steps) && n < |states| && id < |states[n].jobs| && states[n].jobs[id].status.Done?
    ensures take < m < n && Takes(states, steps, take, p, id)
    ensures steps[m].Complete? && steps[m].p == p && steps[m].ok && states[n].jobs[id].result == Some(steps[m].result)
    ensures states[n].jobs[id].finished == Some(states[m].now)
  {
    m := SomeStepFinishedIt(states, steps, n, id);
    JobsSoundThroughout(states, steps, m);
    FinishingStores(states[m], steps[m], id);
    p := steps[m].p;
    take := ExecutorTookIt(states, steps, m, p, id);
  }

  // ---- nobody is forgotten ------------------------------------------------------------------------

  lemma SpawnBalances(s: State, step: Step, id: JobId)
    requires Enabled(s, step) && (step.Deliver? || step.Scan? || step.EnqueueFails?)
    ensures Surplus(Do(s, step), id) == Surplus(s, id)
  {
    SumAppend(s.procs, Do(s, step).procs[|s.procs|], OwedBy(id));
  }

  lemma WorkBalances(s: State, step: Step, id: JobId)
    requires Enabled(s, step) && (step.Take? || step.Complete?)
    ensures Surplus(Do(s, step), id) == Surplus(s, id)
  {
    ProcStep(s, step.p, Do(s, step).procs[step.p], id);
  }

  lemma StepBalancesNotes(s: State, step: Step, id: JobId)
    requires JobsSound(s) && Enabled(s, step) && !step.Die? && !step.CancelQueued?
    ensures Surplus(Do(s, step), id) == Surplus(s, id)
  {
    if step.Deliver? || step.Scan? || step.EnqueueFails? {
      SpawnBalances(s, step, id);
    } else if step.Take? || step.Complete? {
      WorkBalances(s, step, id);
    } else if step.ReapOne? {
      ReapStep(s, step.p, id);
    } else if OfProc(step) {
      NotifyStep(s, step, id);
    }
  }

  /**
   * As long as no process dies and nobody cancels, a finished job has exactly one rightful
   * notification, sent or still to be sent, and a job that is not finished has none.
   */
  lemma {:induction false} NobodyIsForgotten(states: seq<State>, steps: seq<Step>, n: nat, id: JobId)
    requires Run(states, steps) && n < |states| && forall m :: 0 <= m < n ==> !steps[m].Die? && !steps[m].CancelQueued?
    ensures Notifications(states[n], id) == if id < |states[n].jobs| && Finished(states[n].jobs[id]) then 1 else 0
  {
    if n > 0 {
      NobodyIsForgotten(states, steps, n - 1, id);
      JobsSoundThroughout(states, steps, n - 1);
      StepBalancesNotes(states[n - 1], steps[n - 1], id);
    }
  }
}
