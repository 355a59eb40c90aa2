/**
 * LogRetriever.via_system: bringing a finished job's stderr, stdout and
 * user log from its working directory to the destinations the submitter
 * asked for, by copy or by symbolic link, and the verdict on the job.
 */
module Retrieval {
  import opened Wrappers
  import opened PosixPath
  import opened Files
  import opened Jobs
  import opened Remaps

  /** One of the three (source, destination) pairs of the transfer loop. */
  datatype Transfer = Transfer(src: Path, dest: Option<Path>)

  /** The pairs in loop order: stderr, stdout, user log; the sources under Iwd. */
  function Transfers(job: Job, d: Destinations): (ts: seq<Transfer>)
    requires job.userLog.Some?
    ensures |ts| == 3
    ensures ts[0].dest == d.err && ts[1].dest == d.out && ts[2].dest == d.log
  {
    [Transfer(Join(job.iwd, job.err), d.err),
     Transfer(Join(job.iwd, job.out), d.out),
     Transfer(Join(job.iwd, job.userLog.value), d.log)]
  }

  /** What became of one pair. */
  datatype Outcome =
    | Skipped        // source not a regular file, job not Completed
    | NotRegular     // source not a regular file, job Completed
    | NoDestination  // no destination resolved
    | Made           // copy or link made
    | Existing       // EEXIST
    | Failed         // any other error

  /** The outcomes that turn the verdict to False. */
  predicate IsFailure(o: Outcome) {
    o.NotRegular? || o.NoDestination? || o.Failed?
  }

  datatype Step = Step(outcome: Outcome, nodes: Nodes)

  /** One pass of the transfer loop. */
  function TransferStep(nodes: Nodes, faults: Faults, t: Transfer, status: int, symlinkMode: bool): (s: Step)
    ensures s.outcome.Skipped? <==> !IsRegular(nodes, t.src) && status != Completed
    ensures s.outcome.NotRegular? <==> !IsRegular(nodes, t.src) && status == Completed
    ensures s.outcome.NoDestination? <==> IsRegular(nodes, t.src) && t.dest.None?
    ensures s.outcome.Made? ==> t.dest.Some? && OnlyAt(nodes, s.nodes, t.dest.value)
    ensures s.outcome.Made? && symlinkMode ==> t.dest.value !in nodes && IsLink(s.nodes, t.dest.value)
    ensures s.outcome.Made? && !symlinkMode ==> IsFile(s.nodes, t.dest.value)
    ensures !s.outcome.Made? ==> s.nodes == nodes
    ensures s.outcome.Existing? && symlinkMode ==> t.dest.Some? && (t.dest.value in nodes || t.dest.value in faults)
    ensures s.outcome.Existing? && !symlinkMode ==> t.dest.Some? && t.dest.value in faults
    // copy2 of a regular source: made unless it is the same path or the destination faults; EEXIST is benign
    ensures IsRegular(nodes, t.src) && t.dest.Some? && !symlinkMode ==>
      var d := t.dest.value;
      && (s.outcome.Made? <==> t.src != d && d !in faults)
      && (s.outcome.Existing? <==> t.src != d && d in faults && faults[d] == AlreadyExists)
      && (s.outcome.Failed? <==> t.src == d || (d in faults && faults[d] == OtherError))
    // os.symlink of a regular source: made unless the destination exists or faults; EEXIST is benign
    ensures IsRegular(nodes, t.src) && t.dest.Some? && symlinkMode ==>
      var d := t.dest.value;
      && (s.outcome.Made? <==> d !in nodes && d !in faults)
      && (s.outcome.Existing? <==> d in nodes || (d in faults && faults[d] == AlreadyExists))
      && (s.outcome.Failed? <==> d !in nodes && d in faults && faults[d] == OtherError)
  {
    if !IsFile(nodes, t.src) || IsLink(nodes, t.src) then
      Step(if status != Completed then Skipped else NotRegular, nodes)
    else if t.dest.None? then Step(NoDestination, nodes)
    else
      var e := if symlinkMode then SymlinkEffect(nodes, faults, t.src, t.dest.value)
               else CopyEffect(nodes, faults, t.src, t.dest.value);
      match e.error
      case None => Step(Made, e.nodes)
      case Some(AlreadyExists) => Step(Existing, nodes)
      case Some(OtherError) => Step(Failed, nodes)
  }

  /**
   * For a regular source with a destination, the pass counts against the
   * job exactly when the write raised an error other than EEXIST.
   */
  lemma TransferFailsOnlyOnOtherError(nodes: Nodes, faults: Faults, t: Transfer, status: int, symlinkMode: bool)
    requires IsRegular(nodes, t.src) && t.dest.Some?
    ensures var e := if symlinkMode then SymlinkEffect(nodes, faults, t.src, t.dest.value)
                     else CopyEffect(nodes, faults, t.src, t.dest.value);
      IsFailure(TransferStep(nodes, faults, t, status, symlinkMode).outcome) <==> e.error == Some(OtherError)
  {
  }

  /** The outcomes of a sequence of passes and the file system after them. */
  datatype Pass = Pass(outcomes: seq<Outcome>, nodes: Nodes)

  function RunTransfers(nodes: Nodes, faults: Faults, ts: seq<Transfer>, status: int, symlinkMode: bool): (p: Pass)
    ensures |p.outcomes| == |ts|
    decreases |ts|
  {
    if ts == [] then Pass([], nodes)
    else
      var p := RunTransfers(nodes, faults, ts[..|ts| - 1], status, symlinkMode);
      var s := TransferStep(p.nodes, faults, ts[|ts| - 1], status, symlinkMode);
      Pass(p.outcomes + [s.outcome], s.nodes)
  }

  predicate NoFailure(outcomes: seq<Outcome>) {
    forall k :: 0 <= k < |outcomes| ==> !IsFailure(outcomes[k])
  }

  /** Paths some pair may write. */
  function DestPaths(ts: seq<Transfer>): set<Path> {
    set k | 0 <= k < |ts| && ts[k].dest.Some? :: ts[k].dest.value
  }

  /**
   * The transfer loop removes nothing and writes only destinations; in
   * symlink mode it never touches a path that already exists.
   */
  lemma {:induction false} RunTransfersFrame(nodes: Nodes, faults: Faults, ts: seq<Transfer>, status: int, symlinkMode: bool)
    ensures var p := RunTransfers(nodes, faults, ts, status, symlinkMode);
      && nodes.Keys <= p.nodes.Keys
      && p.nodes.Keys <= nodes.Keys + DestPaths(ts)
      && (forall q :: q in nodes && q !in DestPaths(ts) ==> p.nodes[q] == nodes[q])
      && (symlinkMode ==> forall q :: q in nodes ==> p.nodes[q] == nodes[q])
    decreases |ts|
  {
    if ts != [] {
      var prefix := ts[..|ts| - 1];
      RunTransfersFrame(nodes, faults, prefix, status, symlinkMode);
      assert DestPaths(prefix) <= DestPaths(ts) by {
        forall q | q in DestPaths(prefix) ensures q in DestPaths(ts) {
          var k :| 0 <= k < |prefix| && prefix[k].dest.Some? && prefix[k].dest.value == q;
          assert ts[k] == prefix[k];
        }
      }
      var t := ts[|ts| - 1];
      if t.dest.Some? {
        assert t.dest.value in DestPaths(ts);
      }
    }
  }

  datatype Verdict = Verdict(ok: bool, nodes: Nodes)

  /** Whether SUBMIT_UserLog is missing or empty (`not dest_log`). */
  predicate NoSpool(job: Job) {
    job.submitUserLog.None? || job.submitUserLog.value == ""
  }

  /**
   * via_system on a file system: a TypeError when UserLog is undefined (the
   * join of Iwd with None); True and no file action without a spool log;
   * otherwise True exactly when no pair failed.
   */
  function RetrieveSpec(nodes: Nodes, faults: Faults, job: Job, symlinkMode: bool): (r: Completion<Verdict>)
    ensures r.Raised? <==> job.userLog.None?
    ensures r.Returned? && NoSpool(job) ==> r.value == Verdict(true, nodes)
  {
    if job.userLog.None? then Raised
    else if NoSpool(job) then Returned(Verdict(true, nodes))
    else
      var p := RunTransfers(nodes, faults, Transfers(job, JobDestinations(job)), job.jobStatus, symlinkMode);
      Returned(Verdict(NoFailure(p.outcomes), p.nodes))
  }

  /** The paths via_system may write for a job: its resolved destinations. */
  function JobDestPaths(job: Job): set<Path>
    requires job.userLog.Some?
  {
    DestPaths(Transfers(job, JobDestinations(job)))
  }

  /** via_system removes nothing, writes only the job's destinations, and in symlink mode leaves existing paths alone. */
  lemma RetrieveFrame(nodes: Nodes, faults: Faults, job: Job, symlinkMode: bool)
    requires job.userLog.Some?
    ensures var v := RetrieveSpec(nodes, faults, job, symlinkMode).value;
      && nodes.Keys <= v.nodes.Keys
      && v.nodes.Keys <= nodes.Keys + JobDestPaths(job)
      && (forall q :: q in nodes && q !in JobDestPaths(job) ==> v.nodes[q] == nodes[q])
      && (symlinkMode ==> forall q :: q in nodes ==> v.nodes[q] == nodes[q])
  {
    if !NoSpool(job) {
      RunTransfersFrame(nodes, faults, Transfers(job, JobDestinations(job)), job.jobStatus, symlinkMode);
    }
  }

  /** The three outcomes of a spooled job, in loop order. */
  function Outcomes(nodes: Nodes, faults: Faults, job: Job, symlinkMode: bool): (os: seq<Outcome>)
    requires job.userLog.Some?
    ensures |os| == 3
  {
    RunTransfers(nodes, faults, Transfers(job, JobDestinations(job)), job.jobStatus, symlinkMode).outcomes
  }

  /**
   * The verdict of a spooled job is False exactly when one of its three pairs
   * had a Completed job's non-regular source, no destination, or an error
   * other than EEXIST.
   */
  lemma RetrieveVerdict(nodes: Nodes, faults: Faults, job: Job, symlinkMode: bool)
    requires job.userLog.Some? && !NoSpool(job)
    ensures !RetrieveSpec(nodes, faults, job, symlinkMode).value.ok <==>
      exists k :: 0 <= k < 3 && IsFailure(Outcomes(nodes, faults, job, symlinkMode)[k])
  {
    var os := Outcomes(nodes, faults, job, symlinkMode);
    assert RetrieveSpec(nodes, faults, job, symlinkMode).value.ok == NoFailure(os);
  }

  /** For a job that is not Completed, missing or linked sources never fail the job. */
  lemma {:induction false} NotCompletedToleratesMissingSources(nodes: Nodes, faults: Faults, ts: seq<Transfer>, status: int, symlinkMode: bool)
    requires status != Completed
    requires forall k :: 0 <= k < |ts| ==> !IsRegular(nodes, ts[k].src)
    ensures RunTransfers(nodes, faults, ts, status, symlinkMode) == Pass(seq(|ts|, _ => Skipped), nodes)
    decreases |ts|
  {
    if ts != [] {
      var prefix := ts[..|ts| - 1];
      assert forall k :: 0 <= k < |prefix| ==> prefix[k] == ts[k];
      NotCompletedToleratesMissingSources(nodes, faults, prefix, status, symlinkMode);
      assert seq(|ts|, _ => Skipped) == seq(|prefix|, _ => Skipped) + [Skipped];
    }
  }

  /** The first n outcomes depend on the first n pairs only. */
  lemma {:induction false} RunTransfersPrefix(nodes: Nodes, faults: Faults, ts: seq<Transfer>, status: int, symlinkMode: bool, n: nat)
    requires n <= |ts|
    ensures RunTransfers(nodes, faults, ts[..n], status, symlinkMode).outcomes == RunTransfers(nodes, faults, ts, status, symlinkMode).outcomes[..n]
    decreases |ts|
  {
    if n < |ts| {
      var prefix := ts[..|ts| - 1];
      assert prefix[..n] == ts[..n];
      RunTransfersPrefix(nodes, faults, prefix, status, symlinkMode, n);
    } else {
      assert ts[..n] == ts;
    }
  }

  /**
   * A Completed job without remaps whose stderr is a regular file is judged
   * False: stderr and stdout have no destination.
   */
  lemma CompletedJobWithoutRemapsFails(nodes: Nodes, faults: Faults, job: Job, symlinkMode: bool)
    requires job.userLog.Some? && !NoSpool(job) && job.outputRemaps.None?
    requires job.jobStatus == Completed
    requires IsRegular(nodes, Join(job.iwd, job.err))
    ensures RetrieveSpec(nodes, faults, job, symlinkMode).value.ok == false
  {
    StderrWithoutDestination(nodes, faults, job, symlinkMode);
  }

  /** The stderr pair of a Completed job without remaps ends with no destination. */
  lemma StderrWithoutDestination(nodes: Nodes, faults: Faults, job: Job, symlinkMode: bool)
    requires job.userLog.Some? && !NoSpool(job) && job.outputRemaps.None?
    requires job.jobStatus == Completed
    requires IsRegular(nodes, Join(job.iwd, job.err))
    ensures Outcomes(nodes, faults, job, symlinkMode)[0] == NoDestination
  {
    NoRemapAttribute(job);
    FirstTransferWithoutDestination(nodes, faults, Transfers(job, JobDestinations(job)), job.jobStatus, symlinkMode);
  }

  /** A regular first source without a destination makes the first outcome NoDestination. */
  lemma FirstTransferWithoutDestination(nodes: Nodes, faults: Faults, ts: seq<Transfer>, status: int, symlinkMode: bool)
    requires |ts| > 0 && IsRegular(nodes, ts[0].src) && ts[0].dest.None?
    ensures RunTransfers(nodes, faults, ts, status, symlinkMode).outcomes[0] == NoDestination
  {
    var p1 := RunTransfers(nodes, faults, ts[..1], status, symlinkMode);
    assert p1.outcomes == [NoDestination] by {
      assert ts[..1][..0] == [] && ts[..1][0] == ts[0];
      assert RunTransfers(nodes, faults, ts[..1][..0], status, symlinkMode) == Pass([], nodes);
    }
    RunTransfersPrefix(nodes, faults, ts, status, symlinkMode, 1);
  }

  /** One pass of the transfer loop against the host's file system. */
  method TransferOne(fs: FileSystem, t: Transfer, status: int, symlinkMode: bool) returns (o: Outcome)
    modifies fs
    ensures Step(o, fs.nodes) == TransferStep(old(fs.nodes), fs.faults, t, status, symlinkMode)
  {
    if !IsFile(fs.nodes, t.src) || IsLink(fs.nodes, t.src) {
      o := if status != Completed then Skipped else NotRegular;
    } else if t.dest.None? {
      o := NoDestination;
    } else {
      var error;
      if symlinkMode {
        error := fs.Symlink(t.src, t.dest.value);
      } else {
        error := fs.Copy(t.src, t.dest.value);
      }
      o := match error
        case None => Made
        case Some(AlreadyExists) => Existing
        case Some(OtherError) => Failed;
    }
  }

  /** The transfer loop over any pairs: the verdict starts True and turns False on a failing pair. */
  method TransferAll(fs: FileSystem, ts: seq<Transfer>, status: int, symlinkMode: bool) returns (ok: bool)
    modifies fs
    ensures var p := RunTransfers(old(fs.nodes), fs.faults, ts, status, symlinkMode);
      ok == NoFailure(p.outcomes) && fs.nodes == p.nodes
  {
    ok := true;
    var i := 0;
    ghost var outcomes: seq<Outcome> := [];
    while i < |ts|
      invariant 0 <= i <= |ts|
      invariant RunTransfers(old(fs.nodes), fs.faults, ts[..i], status, symlinkMode) == Pass(outcomes, fs.nodes)
      invariant ok == NoFailure(outcomes)
    {
      ghost var before := fs.nodes;
      var o := TransferOne(fs, ts[i], status, symlinkMode);
      assert Step(o, fs.nodes) == TransferStep(before, fs.faults, ts[i], status, symlinkMode);
      ok := ok && !IsFailure(o);
      assert ts[..i + 1][..i] == ts[..i] && ts[..i + 1][i] == ts[i];
      assert RunTransfers(old(fs.nodes), fs.faults, ts[..i + 1], status, symlinkMode) == Pass(outcomes + [o], fs.nodes);
      assert NoFailure(outcomes + [o]) == (NoFailure(outcomes) && !IsFailure(o)) by {
        assert forall k :: 0 <= k < |outcomes| ==> (outcomes + [o])[k] == outcomes[k];
        assert (outcomes + [o])[|outcomes|] == o;
      }
      outcomes := outcomes + [o];
      i := i + 1;
    }
    assert ts[..i] == ts;
  }

  /** The via_system method: errors before any file action, the no-spool exit, then the transfer loop. */
  method RetrieveViaSystem(fs: FileSystem, job: Job, symlinkMode: bool) returns (r: Completion<bool>)
    modifies fs
    ensures var spec := RetrieveSpec(old(fs.nodes), fs.faults, job, symlinkMode);
      && (spec.Raised? ==> r.Raised? && fs.nodes == old(fs.nodes))
      && (spec.Returned? ==> r == Returned(spec.value.ok) && fs.nodes == spec.value.nodes)
  {
    if job.userLog.None? {
      return Raised;
    }
    if NoSpool(job) {
      return Returned(true);
    }
    var ok := TransferAll(fs, Transfers(job, JobDestinations(job)), job.jobStatus, symlinkMode);
    return Returned(ok);
  }
}
