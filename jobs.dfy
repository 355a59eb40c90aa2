/** Job snapshots as a query returns them, and their string ids. */
module Jobs {
  import opened Wrappers
  import opened Text

  /** "ClusterId.ProcId", the key of every agent's bookkeeping. */
  type JobId = string

  /** JobStatus values the agents test. */
  const Removed := 3
  const Completed := 4

  /**
   * The job attributes the agents project. Iwd, Err and Out are always
   * defined for an HTCondor job; the others may be undefined (None).
   */
  datatype Job = Job(
    clusterId: int,
    procId: int,
    jobStatus: int,
    enteredCurrentStatus: int,
    iwd: string,
    err: string,
    out: string,
    userLog: Option<string>,
    submitUserLog: Option<string>,
    outputRemaps: Option<string>,
    sdfPath: Option<string>,
    sdfCopied: Option<int>)

  /** get_condor_job_id: the text of ClusterId, a '.', the text of ProcId. */
  function CondorJobId(job: Job): JobId {
    IntToString(job.clusterId) + "." + IntToString(job.procId)
  }

  /** Reads an id back into (ClusterId, ProcId), splitting at the first '.'. */
  function ParseJobId(id: JobId): Option<(int, int)> {
    var i := IndexOf(id, '.');
    if i == |id| then None
    else match (ParseInt(id[..i]), ParseInt(id[i + 1..]))
      case (Some(c), Some(p)) => Some((c, p))
      case _ => None
  }

  /** The id of a job determines its ClusterId and ProcId. */
  lemma {:induction false} JobIdRoundTrip(job: Job)
    ensures ParseJobId(CondorJobId(job)) == Some((job.clusterId, job.procId))
  {
    var a, b := IntToString(job.clusterId), IntToString(job.procId);
    var id := CondorJobId(job);
    assert id[|a|] == '.';
    assert forall k :: 0 <= k < |a| ==> id[k] == a[k];
    var i := IndexOf(id, '.');
    assert i == |a|;
    assert id[..i] == a;
    assert id[i + 1..] == b;
    IntToStringRoundTrip(job.clusterId);
    IntToStringRoundTrip(job.procId);
  }

  /** Two jobs share an id exactly when they share ClusterId and ProcId. */
  lemma JobIdInjective(x: Job, y: Job)
    ensures CondorJobId(x) == CondorJobId(y) <==> x.clusterId == y.clusterId && x.procId == y.procId
  {
    JobIdRoundTrip(x);
    JobIdRoundTrip(y);
  }

  /** The ids of a sequence of jobs. */
  function JobIds(jobs: seq<Job>): set<JobId> {
    set k | 0 <= k < |jobs| :: CondorJobId(jobs[k])
  }
}
