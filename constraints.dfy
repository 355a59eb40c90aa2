/**
 * The ClassAd filter and value strings the agents hand to the queue. The
 * filter language itself is not interpreted; where a property needs what a
 * filter selects, the selection is written out as a predicate on job
 * snapshots beside the string it stands for.
 */
module Constraints {
  import opened Wrappers
  import opened Text
  import opened Jobs

  /** LogRetriever.requirements: finished (Completed or Removed) jobs with a spool log still held in the queue. */
  const RetrieverRequirements := "isString(SUBMIT_UserLog) && LeaveJobInQueue isnt false && ( JobStatus == 4 || JobStatus == 3 ) "

  /** CleanupDelayer.requirements: unfinished jobs without a spool log that the queue would drop when done. */
  const CleanupRequirements := "SUBMIT_UserLog is undefined && LeaveJobInQueue is false && ( member(JobStatus, {1,2,5,6,7}) )"

  /** The job attribute LogRetriever and CleanupDelayer set. */
  const LeaveJobInQueue := "LeaveJobInQueue"

  /** The two SDFFetcher filters: the current one, and the older one of the single-script variant. */
  datatype SdfFilter = CurrentSdfFilter | VariantSdfFilter

  function SdfRequirements(f: SdfFilter): string {
    match f
    case CurrentSdfFilter => "(isUndefined(sdfCopied) || sdfCopied == 0) && isString(sdfPath) "
    case VariantSdfFilter => "sdfCopied == 0 && isString(sdfPath) "
  }

  /**
   * What each SDF filter selects: a string sdfPath, and sdfCopied equal to 0
   * (or, for the current filter, undefined). `sdfCopied == 0` on an undefined
   * attribute is undefined in ClassAd, which does not select the job.
   */
  predicate SdfAdmits(f: SdfFilter, job: Job) {
    && job.sdfPath.Some?
    && match f
       case CurrentSdfFilter => job.sdfCopied.None? || job.sdfCopied == Some(0)
       case VariantSdfFilter => job.sdfCopied == Some(0)
  }

  /** The variant filter selects a subset of what the current filter selects, and misses exactly the jobs never marked. */
  lemma VariantSdfFilterNarrower(job: Job)
    ensures SdfAdmits(VariantSdfFilter, job) ==> SdfAdmits(CurrentSdfFilter, job)
    ensures SdfAdmits(CurrentSdfFilter, job) && !SdfAdmits(VariantSdfFilter, job) <==> job.sdfPath.Some? && job.sdfCopied.None?
  {
  }

  const DelayPrefix := "( time() - EnteredCurrentStatus ) < "

  /** CleanupDelayer's LeaveJobInQueue value with delay_time filled in. */
  function DelayValue(delay: int): (v: string)
    ensures |v| > |DelayPrefix| + 1 && v[..|DelayPrefix|] == DelayPrefix && v[|v| - 1] == ' '
  {
    DelayPrefix + IntToString(delay) + " "
  }

  /** Reads the integer between a known prefix and the single trailing space of a generated string. */
  function IntBetween(prefix: string, s: string): Option<int> {
    if |s| > |prefix| && s[..|prefix|] == prefix && s[|s| - 1] == ' ' then ParseInt(s[|prefix|..|s| - 1])
    else None
  }

  /** The delay can be read back from the value written to the queue. */
  lemma DelayValueRoundTrip(delay: int)
    ensures IntBetween(DelayPrefix, DelayValue(delay)) == Some(delay)
  {
    var v := DelayValue(delay);
    assert v[|DelayPrefix|..|v| - 1] == IntToString(delay);
    IntToStringRoundTrip(delay);
  }

  /** Different delays give different values. */
  lemma DelayValueInjective(d1: int, d2: int)
    ensures DelayValue(d1) == DelayValue(d2) <==> d1 == d2
  {
    DelayValueRoundTrip(d1);
    DelayValueRoundTrip(d2);
  }

  /** Python's `int(x)` on a number: rounds toward zero. */
  function Truncate(x: real): (i: int)
    ensures x >= 0.0 ==> i as real <= x < i as real + 1.0
    ensures x < 0.0 ==> i as real - 1.0 < x <= i as real
  {
    if x >= 0.0 then x.Floor else -((-x).Floor)
  }

  /** Rounding toward zero never reverses an order. */
  lemma TruncateMonotone(x: real, y: real)
    requires x <= y
    ensures Truncate(x) <= Truncate(y)
  {
  }

  const XJobPrefix := "JobStatus =?= 3 && time() - EnteredCurrentStatus >= "

  /** XJobCleaner's constraint with `int(grace_period)` filled in. */
  function XJobConstraint(grace: real): (c: string)
    ensures |c| > |XJobPrefix| + 1 && c[..|XJobPrefix|] == XJobPrefix && c[|c| - 1] == ' '
  {
    XJobPrefix + IntToString(Truncate(grace)) + " "
  }

  /** The constraint carries the grace period rounded toward zero, and nothing finer. */
  lemma XJobConstraintRoundTrip(grace: real)
    ensures IntBetween(XJobPrefix, XJobConstraint(grace)) == Some(Truncate(grace))
  {
    var c := XJobConstraint(grace);
    assert c[|XJobPrefix|..|c| - 1] == IntToString(Truncate(grace));
    IntToStringRoundTrip(Truncate(grace));
  }

  /** Two grace periods give the same constraint exactly when they agree after rounding toward zero. */
  lemma XJobConstraintInjective(g1: real, g2: real)
    ensures XJobConstraint(g1) == XJobConstraint(g2) <==> Truncate(g1) == Truncate(g2)
  {
    XJobConstraintRoundTrip(g1);
    XJobConstraintRoundTrip(g2);
  }

  /** What the XJobCleaner constraint selects at time `now`: Removed jobs that have been so for the grace period. */
  predicate XJobMatches(job: Job, now: int, grace: real) {
    job.jobStatus == Removed && now - job.enteredCurrentStatus >= Truncate(grace)
  }

  /** A longer grace period never selects a job a shorter one leaves alone. */
  lemma GracePeriodMonotone(job: Job, now: int, g1: real, g2: real)
    requires g1 <= g2
    ensures XJobMatches(job, now, g2) ==> XJobMatches(job, now, g1)
  {
    TruncateMonotone(g1, g2);
  }

  /** A job left Removed for exactly the grace period is already selected; one second less is not. */
  lemma GracePeriodBoundary(job: Job, grace: nat)
    requires job.jobStatus == Removed
    ensures XJobMatches(job, job.enteredCurrentStatus + grace, grace as real)
    ensures grace > 0 ==> !XJobMatches(job, job.enteredCurrentStatus + grace - 1, grace as real)
  {
    assert Truncate(grace as real) == grace;
  }
}
