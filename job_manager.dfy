// The in-process job manager: a table of job statuses and one
// cancellation flag per job, each method taken as one atomic step.
module JobManagement {
  import opened Wrappers
  import opened Common

  const RUNNING: string := "running"
  const COMPLETED: string := "completed"
  const CANCELLED: string := "cancelled"
  const FAILED: string := "failed"

  /** Seconds per hour, for the cleanup cut-off. */
  const SECONDS_PER_HOUR: int := 3600

  /** A job's record; times are seconds on the manager's clock, `result` the run summary. */
  datatype JobStatus = JobStatus(
    correlationId: string,
    tenantId: string,
    primitiveName: string,
    status: string,
    startedAt: int,
    completedAt: Option<int>,
    result: Option<Fields>,
    error: Option<string>)

  /** The two dictionaries the manager mutates; a flag is `true` once set. */
  datatype JobTable = JobTable(jobs: map<string, JobStatus>, flags: map<string, bool>)

  /** Every job has a flag and every flag belongs to a job. */
  predicate Aligned(t: JobTable)
  {
    t.jobs.Keys == t.flags.Keys
  }

  predicate Terminal(job: JobStatus)
  {
    job.status == COMPLETED || job.status == FAILED || job.status == CANCELLED
  }

  /** What `cleanup_old_jobs` removes: a finished job that finished before the cut-off. */
  predicate Stale(job: JobStatus, cutoff: int)
  {
    Terminal(job) && job.completedAt.Some? && job.completedAt.value < cutoff
  }

  // ---- The transitions, one per method ----------------------------------

  /** `register_job`: a fresh running record and a fresh, unset flag, replacing any old ones. */
  function Registered(t: JobTable, cid: string, tenantId: string, primitiveName: string, now: int): (r: JobTable)
    ensures cid in r.jobs && r.jobs[cid].status == RUNNING && r.jobs[cid].completedAt.None?
    ensures r.jobs[cid].result.None? && r.jobs[cid].error.None? && r.jobs[cid].startedAt == now
    ensures cid in r.flags && !r.flags[cid]
    ensures forall k :: k != cid ==> (k in r.jobs <==> k in t.jobs) && (k in t.jobs ==> r.jobs[k] == t.jobs[k])
    ensures forall k :: k != cid ==> (k in r.flags <==> k in t.flags) && (k in t.flags ==> r.flags[k] == t.flags[k])
  {
    JobTable(t.jobs[cid := JobStatus(cid, tenantId, primitiveName, RUNNING, now, None, None, None)],
             t.flags[cid := false])
  }

  /** `is_cancelled`: an unknown id is not cancelled. */
  function IsCancelledIn(t: JobTable, cid: string): (b: bool)
    ensures b <==> cid in t.flags && t.flags[cid]
  {
    if cid in t.flags then t.flags[cid] else false
  }

  /**
   * `cancel_job`: only a running job can be cancelled; it gets its flag
   * set, the status "cancelled" and a completion time. Otherwise nothing
   * changes and the answer is false.
   */
  function Cancelled(t: JobTable, cid: string, now: int): (r: (JobTable, bool))
    ensures r.1 <==> cid in t.jobs && t.jobs[cid].status == RUNNING
    ensures !r.1 ==> r.0 == t
    ensures r.1 ==>
              r.0.jobs == t.jobs[cid := t.jobs[cid].(status := CANCELLED, completedAt := Some(now))]
              && r.0.flags == (if cid in t.flags then t.flags[cid := true] else t.flags)
  {
    if cid !in t.jobs then (t, false)
    else if t.jobs[cid].status != RUNNING then (t, false)
    else
      var flags := if cid in t.flags then t.flags[cid := true] else t.flags;
      (JobTable(t.jobs[cid := t.jobs[cid].(status := CANCELLED, completedAt := Some(now))], flags), true)
  }

  /** `complete_job`: a known id is overwritten to "completed" with its result, whatever its status was. */
  function Completed(t: JobTable, cid: string, result: Fields, now: int): (r: JobTable)
    ensures r.flags == t.flags
    ensures cid !in t.jobs ==> r == t
    ensures cid in t.jobs ==>
              r.jobs == t.jobs[cid := t.jobs[cid].(status := COMPLETED, completedAt := Some(now), result := Some(result))]
  {
    if cid in t.jobs
    then JobTable(t.jobs[cid := t.jobs[cid].(status := COMPLETED, completedAt := Some(now), result := Some(result))], t.flags)
    else t
  }

  /** `fail_job`: a known id is overwritten to "failed" with its error, whatever its status was. */
  function Failed(t: JobTable, cid: string, error: string, now: int): (r: JobTable)
    ensures r.flags == t.flags
    ensures cid !in t.jobs ==> r == t
    ensures cid in t.jobs ==>
              r.jobs == t.jobs[cid := t.jobs[cid].(status := FAILED, completedAt := Some(now), error := Some(error))]
  {
    if cid in t.jobs
    then JobTable(t.jobs[cid := t.jobs[cid].(status := FAILED, completedAt := Some(now), error := Some(error))], t.flags)
    else t
  }

  /** The ids `cleanup_old_jobs` collects before deleting. */
  function StaleIds(jobs: map<string, JobStatus>, cutoff: int): (ids: set<string>)
    ensures forall k :: k in ids <==> k in jobs && Stale(jobs[k], cutoff)
  {
    set k | k in jobs && Stale(jobs[k], cutoff)
  }

  /** The table once the stale ids are deleted, with their flags. */
  function CleanedUp(t: JobTable, cutoff: int): (r: JobTable)
    ensures forall k :: k in r.jobs <==> k in t.jobs && !Stale(t.jobs[k], cutoff)
    ensures forall k :: k in r.jobs ==> r.jobs[k] == t.jobs[k]
    ensures forall k :: k in r.flags <==> k in t.flags && !(k in t.jobs && Stale(t.jobs[k], cutoff))
    ensures forall k :: k in r.flags ==> r.flags[k] == t.flags[k]
  {
    var gone := StaleIds(t.jobs, cutoff);
    JobTable(t.jobs - gone, t.flags - gone)
  }

  // ---- Properties of the transitions ------------------------------------

  /** Every transition keeps each job paired with its flag. */
  lemma TransitionsKeepAligned(t: JobTable, cid: string, tenantId: string, primitiveName: string,
                               result: Fields, error: string, now: int, cutoff: int)
    requires Aligned(t)
    ensures Aligned(Registered(t, cid, tenantId, primitiveName, now))
    ensures Aligned(Cancelled(t, cid, now).0)
    ensures Aligned(Completed(t, cid, result, now)) && Aligned(Failed(t, cid, error, now))
    ensures Aligned(CleanedUp(t, cutoff))
  {
    var c := CleanedUp(t, cutoff);
    assert forall k :: k in c.jobs.Keys <==> k in c.flags.Keys;
  }

  /** A successful cancel sets the job's flag; a second cancel of the same job fails and changes nothing. */
  lemma CancelTwice(t: JobTable, cid: string, now1: int, now2: int)
    requires Aligned(t)
    ensures var (t1, ok1) := Cancelled(t, cid, now1);
            (ok1 ==> IsCancelledIn(t1, cid))
            && !Cancelled(t1, cid, now2).1
            && Cancelled(t1, cid, now2).0 == t1
  {
  }

  /** Completing or failing a cancelled job overwrites its status; its flag stays set. */
  lemma FinishAfterCancel(t: JobTable, cid: string, now1: int, result: Fields, error: string, now2: int)
    requires Aligned(t) && Cancelled(t, cid, now1).1
    ensures var t1 := Cancelled(t, cid, now1).0;
            Completed(t1, cid, result, now2).jobs[cid].status == COMPLETED
            && Failed(t1, cid, error, now2).jobs[cid].status == FAILED
            && IsCancelledIn(Completed(t1, cid, result, now2), cid)
            && IsCancelledIn(Failed(t1, cid, error, now2), cid)
  {
  }

  /** Registering again revives any job: running, with an unset flag, so it can be cancelled again. */
  lemma RegisterRevives(t: JobTable, cid: string, tenantId: string, primitiveName: string, now: int, later: int)
    ensures var t1 := Registered(t, cid, tenantId, primitiveName, now);
            !IsCancelledIn(t1, cid) && Cancelled(t1, cid, later).1
  {
  }

  /** Cleanup never removes a running job, and running it twice changes nothing more. */
  lemma CleanupKeepsRunningAndIsIdempotent(t: JobTable, cutoff: int)
    ensures forall k :: k in t.jobs && t.jobs[k].status == RUNNING ==> k in CleanedUp(t, cutoff).jobs
    ensures CleanedUp(CleanedUp(t, cutoff), cutoff) == CleanedUp(t, cutoff)
  {
    var c := CleanedUp(t, cutoff);
    var cc := CleanedUp(c, cutoff);
    assert cc.jobs == c.jobs;
    assert cc.flags == c.flags;
  }

  // ---- The manager ------------------------------------------------------

  class JobManager {
    var jobs: map<string, JobStatus>
    var flags: map<string, bool>

    function Table(): JobTable
      reads this
    {
      JobTable(jobs, flags)
    }

    constructor ()
      ensures Table() == JobTable(map[], map[])
    {
      jobs := map[];
      flags := map[];
    }

    /** `now` stands for the clock read inside the call. */
    method RegisterJob(cid: string, tenantId: string, primitiveName: string, now: int)
      modifies this
      ensures Table() == Registered(old(Table()), cid, tenantId, primitiveName, now)
    {
      jobs := jobs[cid := JobStatus(cid, tenantId, primitiveName, RUNNING, now, None, None, None)];
      flags := flags[cid := false];
    }

    method IsCancelled(cid: string) returns (b: bool)
      ensures b <==> cid in flags && flags[cid]
    {
      b := cid in flags && flags[cid];
    }

    method CancelJob(cid: string, now: int) returns (ok: bool)
      modifies this
      ensures (Table(), ok) == Cancelled(old(Table()), cid, now)
    {
      if cid !in jobs {
        return false;
      }
      var job := jobs[cid];
      if job.status != RUNNING {
        return false;
      }
      if cid in flags {
        flags := flags[cid := true];
      }
      jobs := jobs[cid := job.(status := CANCELLED, completedAt := Some(now))];
      return true;
    }

    method CompleteJob(cid: string, result: Fields, now: int)
      modifies this
      ensures Table() == Completed(old(Table()), cid, result, now)
    {
      if cid in jobs {
        var job := jobs[cid];
        jobs := jobs[cid := job.(status := COMPLETED, completedAt := Some(now), result := Some(result))];
      }
    }

    method FailJob(cid: string, error: string, now: int)
      modifies this
      ensures Table() == Failed(old(Table()), cid, error, now)
    {
      if cid in jobs {
        var job := jobs[cid];
        jobs := jobs[cid := job.(status := FAILED, completedAt := Some(now), error := Some(error))];
      }
    }

    method GetJobStatus(cid: string) returns (r: Option<JobStatus>)
      ensures r.Some? <==> cid in jobs
      ensures r.Some? ==> r.value == jobs[cid]
    {
      r := if cid in jobs then Some(jobs[cid]) else None;
    }

    /** Deletes, one id at a time, the jobs that finished more than `maxAgeHours` before `now`. */
    method CleanupOldJobs(now: int, maxAgeHours: int := 24)
      modifies this
      ensures Table() == CleanedUp(old(Table()), now - maxAgeHours * SECONDS_PER_HOUR)
    {
      var cutoff := now - maxAgeHours * SECONDS_PER_HOUR;
      var toRemove := StaleIds(jobs, cutoff);
      var remaining := toRemove;
      while remaining != {}
        invariant remaining <= toRemove
        invariant jobs == old(jobs) - (toRemove - remaining)
        invariant flags == old(flags) - (toRemove - remaining)
        decreases |remaining|
      {
        var cid :| cid in remaining;
        jobs := jobs - {cid};
        flags := flags - {cid};
        remaining := remaining - {cid};
      }
      assert toRemove - remaining == toRemove;
    }
  }
}
