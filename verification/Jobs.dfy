/** Rows of the job table and their guarded updates (`providers/jobs.py`). */
module Jobs {
  import opened Wrappers

  type JobId = nat
  type Time = nat
  type Payload = string

  datatype Kind = Refresh | OtherKind

  datatype Status = Queued | Running | Done | Failed

  datatype Job = Job(
    kind: Kind,
    status: Status,
    result: Option<Payload>,
    attempts: nat,
    created: Time,
    started: Option<Time>,
    finished: Option<Time>)

  predicate Finished(j: Job) {
    j.status.Done? || j.status.Failed?
  }

  // Each update is one statement: it matches its guard and writes, or writes nothing.

  function Taken(j: Job, now: Time): Job {
    if j.status.Queued? then j.(status := Running, started := Some(now), attempts := j.attempts + 1) else j
  }

  function FinishedWith(j: Job, status: Status, result: Payload, now: Time): Job {
    if Finished(j) then j else j.(status := status, result := Some(result), finished := Some(now))
  }

  /** The guard names the status the caller saw. */
  function FailedFrom(j: Job, seen: Status, result: Payload, now: Time): Job {
    if j.status == seen then j.(status := Failed, result := Some(result), finished := Some(now)) else j
  }

  /** Running jobs are judged by their start, queued ones by their creation. */
  predicate Stuck(j: Job, kind: Kind, cutoff: int) {
    j.kind == kind
    && ((j.status.Running? && j.started.Some? && j.started.value < cutoff) || (j.status.Queued? && j.created < cutoff))
  }

  function StuckIds(jobs: seq<Job>, kind: Kind, cutoff: int, status: Status, n: nat): (ids: seq<JobId>)
    requires n <= |jobs|
    ensures forall id :: id in ids <==> 0 <= id < n && Stuck(jobs[id], kind, cutoff) && jobs[id].status == status
    ensures forall a, b :: 0 <= a < b < |ids| ==> ids[a] < ids[b]
  {
    if n == 0 then []
    else
      var before := StuckIds(jobs, kind, cutoff, status, n - 1);
      assert forall a :: 0 <= a < |before| ==> before[a] in before;
      if Stuck(jobs[n - 1], kind, cutoff) && jobs[n - 1].status == status then before + [n - 1] else before
  }

  /** The stuck jobs, running ones before queued ones, each part in table order; none is listed twice. */
  function AllStuck(jobs: seq<Job>, kind: Kind, cutoff: int): seq<JobId> {
    StuckIds(jobs, kind, cutoff, Running, |jobs|) + StuckIds(jobs, kind, cutoff, Queued, |jobs|)
  }

  /** Running jobs come first, older ones before younger ones, and none is listed twice. */
  lemma StuckInOrder(jobs: seq<Job>, kind: Kind, cutoff: int, a: nat, b: nat)
    requires a < b < |AllStuck(jobs, kind, cutoff)|
    ensures var x, y := AllStuck(jobs, kind, cutoff)[a], AllStuck(jobs, kind, cutoff)[b];
            && x < |jobs| && y < |jobs|
            && (jobs[y].status.Running? ==> jobs[x].status.Running?) && (jobs[x].status == jobs[y].status ==> x < y)
  {
    var running, queued := StuckIds(jobs, kind, cutoff, Running, |jobs|), StuckIds(jobs, kind, cutoff, Queued, |jobs|);
    assert a < |running| ==> running[a] in running;
    assert b < |running| ==> running[b] in running;
    assert a >= |running| ==> queued[a - |running|] in queued;
    assert b >= |running| ==> queued[b - |running|] in queued;
  }

  class JobTable {
    var jobs: seq<Job>

    constructor ()
      ensures jobs == []
    {
      jobs := [];
    }

    method CreateJob(kind: Kind, now: Time) returns (id: JobId)
      modifies this
      ensures id == |old(jobs)| && jobs == old(jobs) + [Job(kind, Queued, None, 0, now, None, None)]
    {
      id := |jobs|;
      jobs := jobs + [Job(kind, Queued, None, 0, now, None, None)];
    }

    method MarkRunning(id: JobId, now: Time) returns (taken: bool)
      requires id < |jobs|
      modifies this
      ensures jobs == old(jobs)[id := Taken(old(jobs)[id], now)]
      ensures taken == old(jobs)[id].status.Queued?
    {
      taken := jobs[id].status.Queued?;
      if taken {
        jobs := jobs[id := jobs[id].(status := Running, started := Some(now), attempts := jobs[id].attempts + 1)];
      } else {
        assert jobs[id := jobs[id]] == jobs;
      }
    }

    method Finish(id: JobId, status: Status, result: Payload, now: Time) returns (won: bool)
      requires id < |jobs| && (status.Done? || status.Failed?)
      modifies this
      ensures jobs == old(jobs)[id := FinishedWith(old(jobs)[id], status, result, now)]
      ensures won == !Finished(old(jobs)[id])
    {
      won := !Finished(jobs[id]);
      if won {
        jobs := jobs[id := jobs[id].(status := status, result := Some(result), finished := Some(now))];
      } else {
        assert jobs[id := jobs[id]] == jobs;
      }
    }

    method FailIfQueued(id: JobId, result: Payload, now: Time) returns (won: bool)
      requires id < |jobs|
      modifies this
      ensures jobs == old(jobs)[id := FailedFrom(old(jobs)[id], Queued, result, now)]
      ensures won == old(jobs)[id].status.Queued?
    {
      won := jobs[id].status.Queued?;
      if won {
        jobs := jobs[id := jobs[id].(status := Failed, result := Some(result), finished := Some(now))];
      } else {
        assert jobs[id := jobs[id]] == jobs;
      }
    }

    /**
     * Fail every job that is stuck, each with an update guarded by the status it was listed with;
     * returns the ones failed. Nothing else changes.
     */
    method FailStuck(kind: Kind, olderThan: nat, result: Payload, now: Time) returns (reaped: seq<JobId>)
      modifies this
      ensures |jobs| == |old(jobs)|
      ensures forall id :: 0 <= id < |jobs| ==>
        jobs[id] == if Stuck(old(jobs)[id], kind, now - olderThan)
                    then old(jobs)[id].(status := Failed, result := Some(result), finished := Some(now))
                    else old(jobs)[id]
      ensures forall id :: 0 <= id < |jobs| ==> (id in reaped <==> Stuck(old(jobs)[id], kind, now - olderThan))
      ensures reaped == AllStuck(old(jobs), kind, now - olderThan)
      ensures forall id :: 0 <= id < |jobs| ==>
        (id in reaped <==>
          && old(jobs)[id].kind == kind
          && if old(jobs)[id].status.Running? then old(jobs)[id].started.Some? && old(jobs)[id].started.value + olderThan < now
             else old(jobs)[id].status.Queued? && old(jobs)[id].created + olderThan < now)
    {
      var stuck, seen := ListStuck(kind, now - olderThan);
      reaped := FailListed(stuck, seen, result, now);
    }

    /** The loop over the listed jobs; with nobody in between, each is still as it was listed. */
    method FailListed(stuck: seq<JobId>, seen: seq<Status>, result: Payload, now: Time) returns (reaped: seq<JobId>)
      requires Distinct(stuck) && |seen| == |stuck|
      requires forall i :: 0 <= i < |stuck| ==> stuck[i] < |jobs| && seen[i] == jobs[stuck[i]].status
      modifies this
      ensures |jobs| == |old(jobs)| && reaped == stuck
      ensures forall id :: 0 <= id < |jobs| ==>
        jobs[id] == if id in stuck then old(jobs)[id].(status := Failed, result := Some(result), finished := Some(now))
                    else old(jobs)[id]
    {
      reaped := [];
      for i := 0 to |stuck|
        invariant |jobs| == |old(jobs)|
        invariant reaped == stuck[..i]
        invariant forall id :: 0 <= id < |jobs| ==>
          jobs[id] == if id in stuck[..i] then old(jobs)[id].(status := Failed, result := Some(result), finished := Some(now))
                      else old(jobs)[id]
      {
        var id := stuck[i];
        assert stuck[..i + 1] == stuck[..i] + [id];
        assert id !in stuck[..i] && id in stuck;
        if jobs[id].status == seen[i] {
          jobs := jobs[id := jobs[id].(status := Failed, result := Some(result), finished := Some(now))];
          reaped := reaped + [id];
        }
      }
      assert stuck[..|stuck|] == stuck;
    }

    /** The stuck jobs and the status each was listed with, running ones first. */
    method ListStuck(kind: Kind, cutoff: int) returns (stuck: seq<JobId>, seen: seq<Status>)
      ensures |seen| == |stuck|
      ensures stuck == AllStuck(jobs, kind, cutoff)
      ensures forall id :: id in stuck <==> 0 <= id < |jobs| && Stuck(jobs[id], kind, cutoff)
      ensures forall i :: 0 <= i < |stuck| ==> stuck[i] < |jobs| && seen[i] == jobs[stuck[i]].status
      ensures Distinct(stuck)
    {
      var running := StuckIds(jobs, kind, cutoff, Running, |jobs|);
      var queued := StuckIds(jobs, kind, cutoff, Queued, |jobs|);
      stuck := running + queued;
      seen := seq(|stuck|, i requires 0 <= i < |stuck| => if i < |running| then Running else Queued);
      forall i | 0 <= i < |stuck|
        ensures if i < |running| then stuck[i] in running else stuck[i] in queued
      {
      }
      forall a, b | 0 <= a < b < |stuck|
        ensures stuck[a] != stuck[b]
      {
        assert b < |running| ==> running[a] < running[b];
        assert a >= |running| ==> queued[a - |running|] < queued[b - |running|];
      }
    }
  }

  ghost predicate Distinct(ids: seq<JobId>) {
    forall a, b :: 0 <= a < b < |ids| ==> ids[a] != ids[b]
  }
}
