/**
 * Workers, redeliveries, the reaper, cancellations and failed enqueues racing on the job table
 * (`phone_refresh/tasks.py`, `phone_refresh/services/refresh_jobs.py`), one database statement or
 * one notification per step.
 */
module JobRuns {
  import opened Wrappers
  import opened Sums
  import opened Jobs

  /** A notification; it is rightful when its sender's own update finished the job. */
  datatype Note = Note(job: JobId, result: Payload, rightful: bool)

  /** One activity of some process. */
  datatype Proc =
    | Delivered(job: JobId)                                  // a worker received the message
    | Executing(job: JobId)                                  // it took the job and calls the provider
    | Owing(job: JobId, result: Payload)                     // it finished the job and has to notify
    | Reaping(stuck: seq<(JobId, Status)>, reaped: seq<JobId>, payload: Payload)
    | Unqueued(job: JobId, result: Payload, won: bool)       // enqueueing raised; about to notify
    | Ended

  datatype State = State(now: Time, jobs: seq<Job>, procs: seq<Proc>, notes: seq<Note>)

  datatype Step =
    | Tick(elapsed: nat)
    | Create(kind: Kind)
    | Deliver(job: JobId)
    | Take(p: nat)
    | Complete(p: nat, ok: bool, result: Payload)
    | NotifyWorker(p: nat)
    | Die(p: nat)
    | Scan(stuck: seq<(JobId, Status)>, olderThan: nat, payload: Payload)
    | ReapOne(p: nat)
    | NotifyReaped(p: nat)
    | CancelQueued(job: JobId, result: Payload)
    | EnqueueFails(job: JobId, result: Payload)
    | NotifyUnqueued(p: nat)

  predicate OfProc(step: Step) {
    step.Take? || step.Complete? || step.NotifyWorker? || step.Die? || step.ReapOne? || step.NotifyReaped? || step.NotifyUnqueued?
  }

  predicate Enabled(s: State, step: Step) {
    && (OfProc(step) ==> step.p < |s.procs|)
    && match step
       case Tick(_) => true
       case Create(_) => true
       case Deliver(job) => job < |s.jobs|
       case Take(p) => s.procs[p].Delivered? && s.procs[p].job < |s.jobs|
       case Complete(p, _, _) => s.procs[p].Executing? && s.procs[p].job < |s.jobs|
       case NotifyWorker(p) => s.procs[p].Owing?
       case Die(p) => true
       case Scan(stuck, olderThan, _) =>
         forall i :: 0 <= i < |stuck| ==>
           stuck[i].0 < |s.jobs| && Stuck(s.jobs[stuck[i].0], Refresh, s.now - olderThan) && s.jobs[stuck[i].0].status == stuck[i].1
       case ReapOne(p) => s.procs[p].Reaping? && |s.procs[p].stuck| > 0 && s.procs[p].stuck[0].0 < |s.jobs|
       case NotifyReaped(p) => s.procs[p].Reaping? && s.procs[p].stuck == [] && |s.procs[p].reaped| > 0
       case CancelQueued(job, _) => job < |s.jobs|
       case EnqueueFails(job, _) => job < |s.jobs|
       case NotifyUnqueued(p) => s.procs[p].Unqueued?
  }

  function Goto(s: State, p: nat, proc: Proc): State
    requires p < |s.procs|
  {
    s.(procs := s.procs[p := proc])
  }

  function Put(s: State, id: JobId, j: Job): State
    requires id < |s.jobs|
  {
    s.(jobs := s.jobs[id := j])
  }

  function Do(s: State, step: Step): State
    requires Enabled(s, step)
  {
    match step
    case Tick(elapsed) => s.(now := s.now + elapsed)
    case Create(kind) => s.(jobs := s.jobs + [Job(kind, Queued, None, 0, s.now, None, None)])
    case Deliver(job) => s.(procs := s.procs + [Delivered(job)])
    case Take(p) =>
      var id := s.procs[p].job;
      if !s.jobs[id].kind.Refresh? || !s.jobs[id].status.Queued? then Goto(s, p, Ended)
      else Goto(Put(s, id, Taken(s.jobs[id], s.now)), p, Executing(id))
    case Complete(p, ok, result) =>
      var id := s.procs[p].job;
      if Finished(s.jobs[id]) then Goto(s, p, Ended)
      else Goto(Put(s, id, FinishedWith(s.jobs[id], if ok then Done else Failed, result, s.now)), p, Owing(id, result))
    case NotifyWorker(p) =>
      Goto(s.(notes := s.notes + [Note(s.procs[p].job, s.procs[p].result, true)]), p, Ended)
    case Die(p) => Goto(s, p, Ended)
    case Scan(stuck, _, payload) => s.(procs := s.procs + [Reaping(stuck, [], payload)])
    case ReapOne(p) =>
      var proc := s.procs[p];
      var id, seen := proc.stuck[0].0, proc.stuck[0].1;
      var won := s.jobs[id].status == seen;
      Goto(Put(s, id, FailedFrom(s.jobs[id], seen, proc.payload, s.now)), p,
           Reaping(proc.stuck[1..], if won then proc.reaped + [id] else proc.reaped, proc.payload))
    case NotifyReaped(p) =>
      var proc := s.procs[p];
      Goto(s.(notes := s.notes + [Note(proc.reaped[0], proc.payload, true)]), p, Reaping([], proc.reaped[1..], proc.payload))
    case CancelQueued(job, result) => Put(s, job, FailedFrom(s.jobs[job], Queued, result, s.now))
    case EnqueueFails(job, result) =>
      // The outcome of the guarded update is not looked at: the notification follows either way.
      Put(s, job, FinishedWith(s.jobs[job], Failed, result, s.now))
        .(procs := s.procs + [Unqueued(job, result, !Finished(s.jobs[job]))])
    case NotifyUnqueued(p) =>
      Goto(s.(notes := s.notes + [Note(s.procs[p].job, s.procs[p].result, s.procs[p].won)]), p, Ended)
  }

  ghost predicate Run(states: seq<State>, steps: seq<Step>) {
    && |states| == |steps| + 1 && states[0] == State(states[0].now, [], [], [])
    && (forall n :: 0 <= n < |steps| ==> Enabled(states[n], steps[n]) && states[n + 1] == Do(states[n], steps[n]))
  }

  // ---- counting --------------------------------------------------------------------

  function IsJob(id: JobId): JobId -> int {
    (x: JobId) => if x == id then 1 else 0
  }

  function RightfulFor(id: JobId): Note -> int {
    (n: Note) => if n.job == id && n.rightful then 1 else 0
  }

  /** How many rightful notifications a process still has to send about a job. */
  function Owed(id: JobId, p: Proc): int {
    match p
    case Owing(job, _) => if job == id then 1 else 0
    case Unqueued(job, _, won) => if job == id && won then 1 else 0
    case Reaping(_, reaped, _) => Sum(reaped, IsJob(id))
    case _ => 0
  }

  function OwedBy(id: JobId): Proc -> int {
    (p: Proc) => Owed(id, p)
  }

  /** Rightful notifications about a job, sent or still owed. */
  function Notifications(s: State, id: JobId): int {
    Sum(s.notes, RightfulFor(id)) + Sum(s.procs, OwedBy(id))
  }

  function TimesFinished(s: State, id: JobId): int {
    if id < |s.jobs| && Finished(s.jobs[id]) then 1 else 0
  }

  // ---- jobs only move forward ------------------------------------------------------

  /** A job is queued and never taken, or taken exactly once; it has a result exactly when finished. */
  ghost predicate JobSound(j: Job) {
    && (j.status.Queued? ==> j.attempts == 0)
    && j.attempts <= 1
    && (j.result.Some? <==> Finished(j))
  }

  /** Whatever a step does to a job, a finished job stays as it is, and a taken one is not taken again. */
  ghost predicate Advances(j: Job, j': Job) {
    && (Finished(j) ==> j' == j)
    && (j.attempts <= j'.attempts)
    && (j'.attempts > j.attempts ==> j.status.Queued? && j'.status.Running?)
    && (j'.status.Queued? ==> j == j')
  }

  /** A reaper only lists statuses that are not final. */
  ghost predicate ScansOpen(s: State) {
    forall p :: 0 <= p < |s.procs| && s.procs[p].Reaping? ==>
      forall i :: 0 <= i < |s.procs[p].stuck| ==> s.procs[p].stuck[i].1.Queued? || s.procs[p].stuck[i].1.Running?
  }

  ghost predicate JobsSound(s: State) {
    ScansOpen(s) && forall id :: 0 <= id < |s.jobs| ==> JobSound(s.jobs[id])
  }

  lemma StepKeepsScansOpen(s: State, step: Step)
    requires ScansOpen(s) && Enabled(s, step)
    ensures ScansOpen(Do(s, step))
  {
    match step
    case ReapOne(p) =>
      var stuck := s.procs[p].stuck;
      forall i | 0 <= i < |stuck[1..]| ensures stuck[1..][i].1.Queued? || stuck[1..][i].1.Running? {
        assert stuck[1..][i] == stuck[i + 1];
      }
    case _ =>
  }

  lemma StepAdvancesJobs(s: State, step: Step)
    requires JobsSound(s) && Enabled(s, step)
    ensures |s.jobs| <= |Do(s, step).jobs|
    ensures forall id :: 0 <= id < |s.jobs| ==> Advances(s.jobs[id], Do(s, step).jobs[id])
    ensures JobsSound(Do(s, step))
  {
    StepKeepsScansOpen(s, step);
    match step
    case ReapOne(p) => assert s.procs[p].stuck[0].1.Queued? || s.procs[p].stuck[0].1.Running?;
    case _ =>
  }

  lemma {:induction false} JobsSoundThroughout(states: seq<State>, steps: seq<Step>, n: nat)
    requires Run(states, steps) && n < |states|
    ensures JobsSound(states[n])
  {
    if n > 0 {
      JobsSoundThroughout(states, steps, n - 1);
      StepAdvancesJobs(states[n - 1], steps[n - 1]);
    }
  }

  /** In every run a job is taken at most once. */
  lemma TakenAtMostOnce(states: seq<State>, steps: seq<Step>, n: nat, id: JobId)
    requires Run(states, steps) && n < |states| && id < |states[n].jobs|
    ensures states[n].jobs[id].attempts <= 1
    ensures states[n].jobs[id].attempts == 1 ==> !states[n].jobs[id].status.Queued?
  {
    JobsSoundThroughout(states, steps, n);
  }

  /** Once finished, a job never changes again: status, result and finish time are final. */
  lemma {:induction false} FinishedIsFinal(states: seq<State>, steps: seq<Step>, n: nat, m: nat, id: JobId)
    requires Run(states, steps) && n <= m < |states| && id < |states[n].jobs| && Finished(states[n].jobs[id])
    ensures id < |states[m].jobs| && states[m].jobs[id] == states[n].jobs[id]
  {
    if n < m {
      FinishedIsFinal(states, steps, n, m - 1, id);
      JobsSoundThroughout(states, steps, m - 1);
      StepAdvancesJobs(states[m - 1], steps[m - 1]);
    }
  }

  // ---- one notification, with the stored result ---------------------------------------

  /** Rightful notifications about a job never exceed its one finish. */
  ghost predicate NotesSound(s: State) {
    forall id: JobId :: Notifications(s, id) <= TimesFinished(s, id)
  }

  lemma ProcStep(s: State, p: nat, proc: Proc, id: JobId)
    requires p < |s.procs|
    ensures Sum(s.procs[p := proc], OwedBy(id)) == Sum(s.procs, OwedBy(id)) - Owed(id, s.procs[p]) + Owed(id, proc)
  {
    SumUpdate(s.procs, p, proc, OwedBy(id));
  }

  lemma OwedNonNegative(id: JobId, p: Proc)
    ensures Owed(id, p) >= 0
  {
    if p.Reaping? {
      SumNonNegative(p.reaped, IsJob(id));
    }
  }

  lemma NotifyStep(s: State, step: Step, id: JobId)
    requires Enabled(s, step) && (step.NotifyWorker? || step.NotifyUnqueued? || step.NotifyReaped?)
    ensures Notifications(Do(s, step), id) == Notifications(s, id)
  {
    var s' := Do(s, step);
    ProcStep(s, step.p, s'.procs[step.p], id);
    SumAppend(s.notes, s'.notes[|s.notes|], RightfulFor(id));
    if step.NotifyReaped? {
      var reaped := s.procs[step.p].reaped;
      SumCons(reaped[0], reaped[1..], IsJob(id));
      assert reaped == [reaped[0]] + reaped[1..];
    }
  }

  lemma ReapStep(s: State, p: nat, id: JobId)
    requires JobsSound(s) && Enabled(s, ReapOne(p))
    ensures var s' := Do(s, ReapOne(p));
            Notifications(s', id) - TimesFinished(s', id) == Notifications(s, id) - TimesFinished(s, id)
  {
    var s' := Do(s, ReapOne(p));
    ProcStep(s, p, s'.procs[p], id);
    var proc := s.procs[p];
    assert proc.stuck[0].1.Queued? || proc.stuck[0].1.Running?;
    SumAppend(proc.reaped, proc.stuck[0].0, IsJob(id));
  }

  /** Rightful notifications beyond what a finish accounts for. */
  function Surplus(s: State, id: JobId): int {
    Notifications(s, id) - TimesFinished(s, id)
  }

  lemma SpawnStep(s: State, step: Step, id: JobId)
    requires Enabled(s, step) && (step.Deliver? || step.Scan? || step.EnqueueFails?)
    ensures Surplus(Do(s, step), id) <= Surplus(s, id)
  {
    SumAppend(s.procs, Do(s, step).procs[|s.procs|], OwedBy(id));
  }

  lemma WorkStep(s: State, step: Step, id: JobId)
    requires Enabled(s, step) && (step.Take? || step.Complete? || step.Die?)
    ensures Surplus(Do(s, step), id) <= Surplus(s, id)
  {
    ProcStep(s, step.p, Do(s, step).procs[step.p], id);
    OwedNonNegative(id, s.procs[step.p]);
  }

  lemma StepKeepsNotes(s: State, step: Step, id: JobId)
    requires JobsSound(s) && Enabled(s, step)
    ensures Surplus(Do(s, step), id) <= Surplus(s, id)
  {
    if step.Deliver? || step.Scan? || step.EnqueueFails? {
      SpawnStep(s, step, id);
    } else if step.Take? || step.Complete? || step.Die? {
      WorkStep(s, step, id);
    } else if step.ReapOne? {
      ReapStep(s, step.p, id);
    } else if OfProc(step) {
      NotifyStep(s, step, id);
    }
  }

  lemma {:induction false} NotesSoundThroughout(states: seq<State>, steps: seq<Step>, n: nat)
    requires Run(states, steps) && n < |states|
    ensures NotesSound(states[n])
  {
    if n > 0 {
      NotesSoundThroughout(states, steps, n - 1);
      JobsSoundThroughout(states, steps, n - 1);
      forall id: JobId
        ensures Notifications(states[n], id) <= TimesFinished(states[n], id)
      {
        StepKeepsNotes(states[n - 1], steps[n - 1], id);
      }
    }
  }

  /** The stored result of a job. */
  predicate Stored(jobs: seq<Job>, id: JobId, result: Payload) {
    id < |jobs| && jobs[id].result == Some(result)
  }

  /** What a process that is to notify rightfully will say. */
  ghost predicate SaysStored(jobs: seq<Job>, p: Proc, id: JobId) {
    match p
    case Owing(job, result) => job == id ==> Stored(jobs, id, result)
    case Unqueued(job, result, won) => job == id && won ==> Stored(jobs, id, result)
    case Reaping(_, reaped, payload) => id in reaped ==> Stored(jobs, id, payload)
    case _ => true
  }

  ghost predicate NoteSaysStored(jobs: seq<Job>, n: Note, id: JobId) {
    n.job == id && n.rightful ==> Stored(jobs, id, n.result)
  }

  ghost predicate AllSayStored(s: State, id: JobId) {
    && (forall p :: 0 <= p < |s.procs| ==> SaysStored(s.jobs, s.procs[p], id))
    && (forall n :: 0 <= n < |s.notes| ==> NoteSaysStored(s.jobs, s.notes[n], id))
  }

  /** Results, once stored, stay. */
  ghost predicate ResultsStay(jobs: seq<Job>, jobs': seq<Job>) {
    |jobs| <= |jobs'| && forall id :: 0 <= id < |jobs| && jobs[id].result.Some? ==> jobs'[id].result == jobs[id].result
  }

  lemma StepKeepsResults(s: State, step: Step)
    requires JobsSound(s) && Enabled(s, step)
    ensures ResultsStay(s.jobs, Do(s, step).jobs)
  {
    StepAdvancesJobs(s, step);
    forall id | 0 <= id < |s.jobs| && s.jobs[id].result.Some? ensures Do(s, step).jobs[id].result == s.jobs[id].result {
      assert JobSound(s.jobs[id]) && Advances(s.jobs[id], Do(s, step).jobs[id]);
    }
  }

  /** The process that a step moves or starts says what is stored, if it says anything. */
  lemma MovedProcSaysStored(s: State, step: Step, p: nat, id: JobId)
    requires JobsSound(s) && Enabled(s, step) && p < |Do(s, step).procs|
    requires if OfProc(step) then p == step.p && SaysStored(s.jobs, s.procs[p], id) else p == |s.procs|
    ensures SaysStored(Do(s, step).jobs, Do(s, step).procs[p], id)
  {
    if step.ReapOne? {
      assert s.procs[p].stuck[0].1.Queued? || s.procs[p].stuck[0].1.Running?;
    }
  }

  lemma OtherProcsStay(s: State, step: Step, p: nat)
    requires Enabled(s, step) && p < |Do(s, step).procs| && !(if OfProc(step) then p == step.p else p == |s.procs|)
    ensures p < |s.procs| && Do(s, step).procs[p] == s.procs[p]
  {
  }

  lemma NewNoteSaysStored(s: State, step: Step, n: nat, id: JobId)
    requires Enabled(s, step) && |s.notes| <= n < |Do(s, step).notes|
    requires OfProc(step) ==> SaysStored(s.jobs, s.procs[step.p], id)
    ensures NoteSaysStored(Do(s, step).jobs, Do(s, step).notes[n], id)
  {
    if step.NotifyReaped? {
      assert s.procs[step.p].reaped[0] in s.procs[step.p].reaped;
    }
  }

  lemma OldNotesStay(s: State, step: Step)
    requires Enabled(s, step)
    ensures |s.notes| <= |Do(s, step).notes| && Do(s, step).notes[..|s.notes|] == s.notes
  {
  }

  lemma StepKeepsStored(s: State, step: Step, id: JobId)
    requires JobsSound(s) && Enabled(s, step) && AllSayStored(s, id)
    ensures AllSayStored(Do(s, step), id)
  {
    StepKeepsResults(s, step);
    StepKeepsSayings(s, step, Do(s, step), id);
  }

  lemma StepKeepsSayings(s: State, step: Step, s': State, id: JobId)
    requires JobsSound(s) && Enabled(s, step) && AllSayStored(s, id) && s' == Do(s, step) && ResultsStay(s.jobs, s'.jobs)
    ensures AllSayStored(s', id)
  {
    forall p | 0 <= p < |s'.procs| ensures SaysStored(s'.jobs, s'.procs[p], id) {
      if if OfProc(step) then p == step.p else p == |s.procs| {
        MovedProcSaysStored(s, step, p, id);
      } else {
        OtherProcsStay(s, step, p);
        assert SaysStored(s.jobs, s.procs[p], id);
      }
    }
    OldNotesStay(s, step);
    forall n | 0 <= n < |s'.notes| ensures NoteSaysStored(s'.jobs, s'.notes[n], id) {
      if n < |s.notes| {
        assert s'.notes[..|s.notes|][n] == s'.notes[n];
        assert NoteSaysStored(s.jobs, s.notes[n], id);
      } else {
        NewNoteSaysStored(s, step, n, id);
      }
    }
  }

  lemma {:induction false} StoredThroughout(states: seq<State>, steps: seq<Step>, n: nat, id: JobId)
    requires Run(states, steps) && n < |states|
    ensures AllSayStored(states[n], id)
  {
    if n > 0 {
      StoredThroughout(states, steps, n - 1, id);
      JobsSoundThroughout(states, steps, n - 1);
      StepKeepsStored(states[n - 1], steps[n - 1], id);
    }
  }

  lemma TwoRightfulNotes(notes: seq<Note>, i: nat, j: nat, id: JobId)
    requires i < j < |notes| && RightfulFor(id)(notes[i]) == 1 && RightfulFor(id)(notes[j]) == 1
    ensures Sum(notes, RightfulFor(id)) >= 2
  {
    var rest := notes[..j] + notes[j + 1..];
    SumRemove(notes, j, RightfulFor(id));
    SumRemove(rest, i, RightfulFor(id));
    SumNonNegative(rest[..i] + rest[i + 1..], RightfulFor(id));
  }

  /** In every run, at most one rightful notification is sent about a job, and it carries the stored result. */
  lemma OneRightfulNotification(states: seq<State>, steps: seq<Step>, n: nat, id: JobId, i: nat)
    requires Run(states, steps) && n < |states| && i < |states[n].notes|
    requires states[n].notes[i].job == id && states[n].notes[i].rightful
    ensures Stored(states[n].jobs, id, states[n].notes[i].result)
    ensures forall j :: 0 <= j < |states[n].notes| && states[n].notes[j].job == id && states[n].notes[j].rightful ==> j == i
  {
    var notes := states[n].notes;
    StoredThroughout(states, steps, n, id);
    assert NoteSaysStored(states[n].jobs, notes[i], id);
    NotesSoundThroughout(states, steps, n);
    assert Notifications(states[n], id) <= TimesFinished(states[n], id);
    forall p | p in states[n].procs ensures OwedBy(id)(p) >= 0 {
      OwedNonNegative(id, p);
    }
    SumNonNegative(states[n].procs, OwedBy(id));
    forall j | 0 <= j < |notes| && notes[j].job == id && notes[j].rightful ensures j == i {
      if j < i {
        TwoRightfulNotes(notes, j, i, id);
      } else if i < j {
        TwoRightfulNotes(notes, i, j, id);
      }
    }
  }

  /** At most one notification about the job was sent, and what was sent is what is stored. */
  ghost predicate NotifiedRight(s: State, id: JobId) {
    && (forall i, j :: 0 <= i < j < |s.notes| && s.notes[i].job == id ==> s.notes[j].job != id)
    && (forall i :: 0 <= i < |s.notes| && s.notes[i].job == id ==> Stored(s.jobs, id, s.notes[i].result))
  }

  /** A failed enqueue that had found the job finished notified all the same, beside another note or with another result. */
  ghost predicate Misled(s: State, id: JobId, i: nat)
    requires i < |s.notes|
  {
    && s.notes[i].job == id && !s.notes[i].rightful
    && (!Stored(s.jobs, id, s.notes[i].result) || exists j :: 0 <= j < |s.notes| && j != i && s.notes[j].job == id)
  }

  /**
   * In every interleaving, at most one notification is sent about a job, carrying the stored result,
   * unless a failed enqueue that lost its update notified; and then exactly if it did so beside
   * another notification, or with another result.
   */
  lemma NotifiedAtMostOnceWithTheStoredResult(states: seq<State>, steps: seq<Step>, n: nat, id: JobId)
    requires Run(states, steps) && n < |states|
    ensures NotifiedRight(states[n], id) <==> forall i :: 0 <= i < |states[n].notes| ==> !Misled(states[n], id, i)
  {
    var s := states[n];
    forall i | 0 <= i < |s.notes| && s.notes[i].job == id && s.notes[i].rightful
      ensures Stored(s.jobs, id, s.notes[i].result)
      ensures forall j :: 0 <= j < |s.notes| && s.notes[j].job == id && s.notes[j].rightful ==> j == i
    {
      OneRightfulNotification(states, steps, n, id, i);
    }
    StrayNotesMislead(s, id);
  }

  predicate RightfulAbout(n: Note, id: JobId) {
    n.job == id && n.rightful
  }

  lemma StrayNotesMislead(s: State, id: JobId)
    requires forall i :: 0 <= i < |s.notes| && RightfulAbout(s.notes[i], id) ==> Stored(s.jobs, id, s.notes[i].result)
    requires forall i, j :: 0 <= i < j < |s.notes| && RightfulAbout(s.notes[i], id) ==> !RightfulAbout(s.notes[j], id)
    ensures NotifiedRight(s, id) <==> forall i :: 0 <= i < |s.notes| ==> !Misled(s, id, i)
  {
    if forall i :: 0 <= i < |s.notes| ==> !Misled(s, id, i) {
      forall i, j | 0 <= i < j < |s.notes| && s.notes[i].job == id ensures s.notes[j].job != id {
        assert !Misled(s, id, i) && !Misled(s, id, j);
      }
      forall i | 0 <= i < |s.notes| && s.notes[i].job == id ensures Stored(s.jobs, id, s.notes[i].result) {
        assert !Misled(s, id, i);
      }
    }
  }

  // ---- the failed enqueue that lost ----------------------------------------------------

  ghost predicate Reachable(s: State) {
    exists states, steps :: Run(states, steps) && states[|steps|] == s
  }

  lemma Start(s: State)
    requires s == State(s.now, [], [], [])
    ensures Reachable(s)
  {
    var none: seq<Step> := [];
    assert Run([s], none) && [s][|none|] == s;
  }

  lemma Go(s: State, step: Step) returns (s': State)
    requires Reachable(s) && Enabled(s, step)
    ensures s' == Do(s, step) && Reachable(s')
  {
    s' := Do(s, step);
    var states, steps :| Run(states, steps) && states[|steps|] == s;
    assert Run(states + [s'], steps + [step]) && (states + [s'])[|steps + [step]|] == s';
  }

  lemma JobDelivered() returns (s: State)
    ensures Reachable(s) && s == State(0, [Job(Refresh, Queued, None, 0, 0, None, None)], [Delivered(0)], [])
  {
    s := State(0, [], [], []);
    Start(s);
    s := Go(s, Create(Refresh));
    s := Go(s, Deliver(0));
  }

  lemma WorkerStarts() returns (s: State)
    ensures Reachable(s) && s.jobs == [Job(Refresh, Running, None, 1, 0, Some(0), None)] && s.notes == []
    ensures s.procs == [Executing(0)]
  {
    s := JobDelivered();
    s := Go(s, Take(0));
  }

  /** A worker takes the job, finishes it and notifies. */
  lemma WorkerFinishes() returns (s: State)
    ensures Reachable(s) && |s.jobs| == 1 && |s.procs| == 1
    ensures Finished(s.jobs[0]) && s.jobs[0].result == Some("fresh") && s.notes == [Note(0, "fresh", true)]
  {
    s := WorkerStarts();
    s := Go(s, Complete(0, true, "fresh"));
    s := Go(s, NotifyWorker(0));
  }

  /**
   * When the message got through although enqueueing raised, the worker may have finished the job
   * first: the guarded update changes nothing, yet a second notification goes out, and its result
   * is not the stored one.
   */
  lemma LostEnqueueNotifiesTwice() returns (s: State)
    ensures Reachable(s) && s.notes == [Note(0, "fresh", true), Note(0, "busy", false)] && Misled(s, 0, 1)
    ensures |s.jobs| == 1 && s.jobs[0].result == Some("fresh")
  {
    var done := WorkerFinishes();
    var raised := Go(done, EnqueueFails(0, "busy"));
    assert raised.procs[1] == Unqueued(0, "busy", false) && raised.notes == done.notes && raised.jobs == done.jobs;
    s := Go(raised, NotifyUnqueued(1));
  }
}
