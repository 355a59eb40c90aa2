/**
 * The SDFFetcher agent: each cycle it queries jobs whose submit description
 * file (sdfPath) has not been fetched yet, copies each one beside the job's
 * user log with the log's `.log` suffix turned into `.jdl`, and marks the
 * jobs in the queue: sdfCopied = 1 when the file is in place, 2 when the
 * source is not a regular file.
 */
module SdfFetching {
  import opened Wrappers
  import opened PosixPath
  import opened Jobs
  import opened Files
  import opened Remote
  import opened Constraints
  import opened Bookkeeping
  import opened Loop

  /** The log the file is placed beside: SUBMIT_UserLog when set and non-empty, else UserLog when so. */
  function SdfLogPath(job: Job): (r: Option<Path>)
    ensures r.Some? ==> r.value != [] && (r == job.submitUserLog || r == job.userLog)
    ensures r.None? <==> (job.submitUserLog.None? || job.submitUserLog.value == []) && (job.userLog.None? || job.userLog.value == [])
    ensures job.submitUserLog.Some? && job.submitUserLog.value != [] ==> r == job.submitUserLog
  {
    if job.submitUserLog.Some? && job.submitUserLog.value != [] then job.submitUserLog
    else if job.userLog.Some? && job.userLog.value != [] then job.userLog
    else None
  }

  /**
   * The pattern `.log` matches the characters ending at e: any character
   * but a newline, then `log`.
   */
  predicate DotLogEndsAt(name: string, e: nat)
    requires e <= |name|
  {
    e >= 4 && name[e - 4] != '\n' && name[e - 3] == 'l' && name[e - 2] == 'o' && name[e - 1] == 'g'
  }

  /**
   * `re.sub(r'.log$', '.jdl', name)`. The dot is any character but a
   * newline, and `$` matches at the end or just before a final newline; the
   * two places cannot both match, so at most one replacement is made, and
   * only the last five characters can change.
   */
  function JdlName(name: string): (r: string)
    ensures |r| == |name|
    ensures forall k :: 0 <= k < |name| - 5 ==> r[k] == name[k]
    ensures r != name ==> DotLogEndsAt(name, |name|) || (DotLogEndsAt(name, |name| - 1) && name[|name| - 1] == '\n')
  {
    var n := |name|;
    if DotLogEndsAt(name, n) then name[..n - 4] + ".jdl"
    else if n >= 1 && name[n - 1] == '\n' && DotLogEndsAt(name, n - 1) then name[..n - 5] + ".jdl\n"
    else name
  }

  /** A `.log` file name becomes the same stem with `.jdl`. */
  lemma JdlNameOfDotLog(stem: string)
    ensures JdlName(stem + ".log") == stem + ".jdl"
  {
    var name := stem + ".log";
    assert DotLogEndsAt(name, |name|);
    assert name[..|name| - 4] == stem;
  }

  /** The unescaped dot: any character other than a newline before a final `log` is replaced too. */
  lemma JdlNameAnyCharBeforeLog(stem: string, c: char)
    requires c != '\n'
    ensures JdlName(stem + [c] + "log") == stem + ".jdl"
  {
    var name := stem + [c] + "log";
    assert DotLogEndsAt(name, |name|);
    assert name[..|name| - 4] == stem;
  }

  /** A name whose last three characters, and last three before a final newline, are not `log` is left as it is. */
  lemma JdlNameWithoutLogSuffix(name: string)
    requires |name| < 3 || name[|name| - 3..] != "log"
    requires |name| < 4 || name[|name| - 4..] != "log\n"
    ensures JdlName(name) == name
  {
  }

  /** The destination of the copy: the user log's directory, joined with the log's name turned into a `.jdl` name, normalised. */
  function SdfDestination(log: Path): (dest: Path)
    ensures dest != []
  {
    NormPath(Join(Dirname(log), JdlName(Basename(log))))
  }

  /**
   * For a user log `d/stem.log`, the file goes beside the log: into d,
   * under the same stem with `.jdl`, normalised.
   */
  lemma SdfDestinationBesideLog(d: Path, stem: string)
    requires d != [] && d[|d| - 1] != '/'
    requires '/' !in stem
    ensures SdfDestination(d + "/" + stem + ".log") == NormPath(d + "/" + stem + ".jdl")
  {
    assert d + "/" + stem + ".log" == d + "/" + (stem + ".log");
    assert d + "/" + stem + ".jdl" == d + "/" + (stem + ".jdl");
    SplitAtLastSlash(d, stem + ".log");
    JdlNameOfDotLog(stem);
  }

  /**
   * via_system's answer: True (mark the job copied), False (mark it failed
   * and skip it from now on) or None (leave it for a later cycle).
   */
  datatype Verdict = Fetched | Unfetchable | Undecided

  /** What via_system returned and the file system it left. */
  datatype Fetch = Fetch(verdict: Verdict, nodes: Nodes)

  /**
   * via_system: no user log means nothing to do; an undefined sdfPath makes
   * the file test raise; a source that is not a file is a failure; an
   * existing destination is kept; otherwise the file is copied, EEXIST
   * counting as done and any other error leaving the job undecided.
   */
  function FetchSpec(nodes: Nodes, faults: Faults, job: Job): (r: Completion<Fetch>)
    ensures r.Raised? <==> SdfLogPath(job).Some? && job.sdfPath.None?
  {
    match SdfLogPath(job)
    case None => Returned(Fetch(Fetched, nodes))
    case Some(log) =>
      if job.sdfPath.None? then Raised
      else
        var src := job.sdfPath.value;
        var dest := SdfDestination(log);
        if !IsFile(nodes, src) then Returned(Fetch(Unfetchable, nodes))
        else if IsFile(nodes, dest) then Returned(Fetch(Fetched, nodes))
        else
          var e := CopyEffect(nodes, faults, src, dest);
          Returned(Fetch(if e.error == Some(OtherError) then Undecided else Fetched, e.nodes))
  }

  /**
   * The three answers of via_system for a job with a log and an sdfPath:
   * False exactly when the source is not a file; None exactly when the copy
   * had to be made and raised an error other than EEXIST; True otherwise.
   */
  lemma FetchVerdicts(nodes: Nodes, faults: Faults, job: Job, log: Path)
    requires SdfLogPath(job) == Some(log) && job.sdfPath.Some?
    ensures var src, dest := job.sdfPath.value, SdfDestination(log);
      var v := FetchSpec(nodes, faults, job).value.verdict;
      && (v == Unfetchable <==> !IsFile(nodes, src))
      && (v == Undecided <==> IsFile(nodes, src) && !IsFile(nodes, dest) && dest in faults && faults[dest] == OtherError)
      && (v == Fetched <==> IsFile(nodes, src) && (IsFile(nodes, dest) || dest !in faults || faults[dest] == AlreadyExists))
  {
  }

  /**
   * via_system changes the file system only at the destination, never
   * overwrites a file already there, and leaves a file there whenever it
   * changes anything.
   */
  lemma FetchFrame(nodes: Nodes, faults: Faults, job: Job, log: Path)
    requires SdfLogPath(job) == Some(log) && job.sdfPath.Some?
    ensures var dest, after := SdfDestination(log), FetchSpec(nodes, faults, job).value.nodes;
      && OnlyAt(nodes, after, dest)
      && (IsFile(nodes, dest) ==> after == nodes)
      && (after != nodes ==> IsFile(after, dest))
  {
    var src, dest := job.sdfPath.value, SdfDestination(log);
    if IsFile(nodes, src) && !IsFile(nodes, dest) {
      var e := CopyEffect(nodes, faults, src, dest);
      assert FetchSpec(nodes, faults, job).value.nodes == e.nodes;
    }
  }

  /** A job without a user log is reported done without any file action. */
  lemma FetchWithoutLog(nodes: Nodes, faults: Faults, job: Job)
    requires SdfLogPath(job).None?
    ensures FetchSpec(nodes, faults, job) == Returned(Fetch(Fetched, nodes))
  {
  }

  /** The via_system method. */
  method FetchViaSystem(fs: FileSystem, job: Job) returns (r: Completion<Verdict>)
    modifies fs
    ensures var spec := FetchSpec(old(fs.nodes), fs.faults, job);
      && (spec.Raised? ==> r.Raised? && fs.nodes == old(fs.nodes))
      && (spec.Returned? ==> r == Returned(spec.value.verdict) && fs.nodes == spec.value.nodes)
  {
    var log := SdfLogPath(job);
    if log.None? {
      return Returned(Fetched);
    }
    if job.sdfPath.None? {
      return Raised;
    }
    var src := job.sdfPath.value;
    var dest := SdfDestination(log.value);
    if !IsFile(fs.nodes, src) {
      return Returned(Unfetchable);
    }
    if IsFile(fs.nodes, dest) {
      return Returned(Fetched);
    }
    var error := fs.Copy(src, dest);
    r := Returned(if error == Some(OtherError) then Undecided else Fetched);
  }

  /**
   * The state of the query loop: the handled set (read, never changed, in
   * the loop), the ids to mark copied and failed, and the file system.
   */
  datatype Buckets = Buckets(handled: set<JobId>, copied: set<JobId>, failed: set<JobId>, nodes: Nodes)

  /** The loop's verdict on one job: skipped when handled, else sorted by what via_system answered. */
  function SortJob(faults: Faults, b: Buckets, job: Job): (r: Handled<Buckets>)
    ensures r.state.handled == b.handled
    ensures CondorJobId(job) in b.handled ==> r == Handled(b, false)
    ensures r.raised <==> CondorJobId(job) !in b.handled && SdfLogPath(job).Some? && job.sdfPath.None?
    ensures r.raised ==> r.state == b
    ensures r.state.copied == b.copied || r.state.copied == b.copied + {CondorJobId(job)}
    ensures r.state.failed == b.failed || r.state.failed == b.failed + {CondorJobId(job)}
    ensures CondorJobId(job) in r.state.copied - b.copied ==> CondorJobId(job) !in r.state.failed - b.failed
    ensures CondorJobId(job) in r.state.failed - b.failed <==>
      CondorJobId(job) !in b.handled && CondorJobId(job) !in b.failed && FetchSpec(b.nodes, faults, job) == Returned(Fetch(Unfetchable, b.nodes))
    ensures CondorJobId(job) in r.state.copied - b.copied <==>
      && CondorJobId(job) !in b.handled && CondorJobId(job) !in b.copied
      && FetchSpec(b.nodes, faults, job).Returned? && FetchSpec(b.nodes, faults, job).value.verdict == Fetched
    ensures CondorJobId(job) !in b.handled && FetchSpec(b.nodes, faults, job).Returned? ==>
      && r.state.nodes == FetchSpec(b.nodes, faults, job).value.nodes
      && (FetchSpec(b.nodes, faults, job).value.verdict == Undecided ==> r.state.copied == b.copied && r.state.failed == b.failed)
  {
    var id := CondorJobId(job);
    if id in b.handled then Handled(b, false)
    else match FetchSpec(b.nodes, faults, job)
      case Raised => Handled(b, true)
      case Returned(f) =>
        var sorted := match f.verdict
          case Fetched => Buckets(b.handled, b.copied + {id}, b.failed, f.nodes)
          case Unfetchable => Buckets(b.handled, b.copied, b.failed + {id}, f.nodes)
          case Undecided => Buckets(b.handled, b.copied, b.failed, f.nodes);
        Handled(sorted, false)
  }

  /** The step the query loop applies to each job. */
  type Sorter = (Buckets, Job) -> Handled<Buckets>

  /** SDFFetcher's step with the file system's faults fixed. */
  function SdfSorter(faults: Faults): Sorter {
    (b: Buckets, job: Job) => SortJob(faults, b, job)
  }

  /**
   * A step that does what SortJob does with the given faults. Agreement is
   * only drawn on where SortJob itself is mentioned, so proofs about a
   * cycle need not look into the file operations of each job.
   */
  ghost predicate Sorts(sort: Sorter, faults: Faults) {
    forall b: Buckets, job: Job {:trigger SortJob(faults, b, job)} :: sort(b, job) == SortJob(faults, b, job)
  }

  /** A queried job that via_system raises on: not handled yet, with a user log but no sdfPath. */
  predicate RaisesOn(handled: set<JobId>, job: Job) {
    CondorJobId(job) !in handled && SdfLogPath(job).Some? && job.sdfPath.None?
  }

  /** One step keeps the handled set, puts at most the job's own id, when not handled, in each bucket, and raises exactly on RaisesOn. */
  lemma SortStep(sort: Sorter, faults: Faults, b: Buckets, job: Job)
    requires Sorts(sort, faults)
    ensures var r := sort(b, job);
      && r.state.handled == b.handled
      && b.copied <= r.state.copied <= b.copied + ({CondorJobId(job)} - b.handled)
      && b.failed <= r.state.failed <= b.failed + ({CondorJobId(job)} - b.handled)
      && (r.raised <==> RaisesOn(b.handled, job))
  {
    var _ := SortJob(faults, b, job);
  }

  /** The query loop keeps the handled set, and only queried ids not handled yet join either bucket. */
  lemma {:induction false} SortJobsBounds(sort: Sorter, faults: Faults, b: Buckets, jobs: seq<Job>)
    requires Sorts(sort, faults)
    ensures var r := QueryLoop(sort, b, jobs).state;
      && r.handled == b.handled
      && b.copied <= r.copied <= b.copied + (JobIds(jobs) - b.handled)
      && b.failed <= r.failed <= b.failed + (JobIds(jobs) - b.handled)
    decreases |jobs|
  {
    if jobs != [] {
      var prefix := jobs[..|jobs| - 1];
      SortJobsBounds(sort, faults, b, prefix);
      var h := QueryLoop(sort, b, prefix);
      if !h.raised {
        SortStep(sort, faults, h.state, jobs[|jobs| - 1]);
      }
      assert JobIds(prefix) <= JobIds(jobs) by {
        forall id | id in JobIds(prefix) ensures id in JobIds(jobs) {
          var k :| 0 <= k < |prefix| && CondorJobId(prefix[k]) == id;
          assert jobs[k] == prefix[k];
        }
      }
      assert CondorJobId(jobs[|jobs| - 1]) in JobIds(jobs);
    }
  }

  /** The query loop raises exactly when one of the jobs raises. */
  lemma {:induction false} SortJobsRaise(sort: Sorter, faults: Faults, b: Buckets, jobs: seq<Job>)
    requires Sorts(sort, faults)
    ensures QueryLoop(sort, b, jobs).raised <==> exists k :: 0 <= k < |jobs| && RaisesOn(b.handled, jobs[k])
    decreases |jobs|
  {
    var keep := (t: Buckets) => t.handled == b.handled;
    var raises := (job: Job) => RaisesOn(b.handled, job);
    forall t: Buckets, job: Job | keep(t)
      ensures (sort(t, job).raised <==> raises(job)) && (!sort(t, job).raised ==> keep(sort(t, job).state))
    {
      SortStep(sort, faults, t, job);
    }
    QueryLoopRaises(sort, b, jobs, keep, raises);
  }

  const SdfCopied := "sdfCopied"
  /** The sdfCopied values of the two buckets. */
  const MarkCopied := "1"
  const MarkFailed := "2"

  /** The handled set after the two marking edits and the calls they made. */
  datatype Marking = Marking(handled: set<JobId>, calls: seq<Call>)

  /**
   * The two write-backs of a completed query, each retried up to three
   * times from log position `pos` on: sdfCopied = 1 for the copied bucket,
   * then sdfCopied = 2 for the failed one. A bucket joins the handled set
   * once its edit is confirmed.
   */
  function MarkBuckets(handled: set<JobId>, copied: set<JobId>, failed: set<JobId>, fails: nat -> bool, pos: nat): (m: Marking)
    ensures handled <= m.handled <= handled + copied + failed
  {
    var e1 := RetryCalls(Edit(copied, SdfCopied, MarkCopied), fails, pos, EditAttempts);
    var h1 := if Succeeded(e1) then handled + copied else handled;
    var e2 := RetryCalls(Edit(failed, SdfCopied, MarkFailed), fails, pos + |e1|, EditAttempts);
    Marking(if Succeeded(e2) then h1 + failed else h1, e1 + e2)
  }

  /**
   * Each bucket is edited once per attempt, copied before failed, and
   * joins the handled set exactly when one of its three attempts is
   * confirmed.
   */
  lemma MarkBucketsEdits(handled: set<JobId>, copied: set<JobId>, failed: set<JobId>, fails: nat -> bool, pos: nat)
    ensures var m := MarkBuckets(handled, copied, failed, fails, pos);
      exists e1: seq<Call>, e2: seq<Call> ::
        && m.calls == e1 + e2
        && 1 <= |e1| <= EditAttempts && 1 <= |e2| <= EditAttempts
        && (forall k :: 0 <= k < |e1| ==> e1[k].request == Edit(copied, SdfCopied, MarkCopied))
        && (forall k :: 0 <= k < |e2| ==> e2[k].request == Edit(failed, SdfCopied, MarkFailed))
        && m.handled == handled + (if Succeeded(e1) then copied else {}) + (if Succeeded(e2) then failed else {})
  {
    var e1 := RetryCalls(Edit(copied, SdfCopied, MarkCopied), fails, pos, EditAttempts);
    var e2 := RetryCalls(Edit(failed, SdfCopied, MarkFailed), fails, pos + |e1|, EditAttempts);
    RetryCallsShape(Edit(copied, SdfCopied, MarkCopied), fails, pos, EditAttempts);
    RetryCallsShape(Edit(failed, SdfCopied, MarkFailed), fails, pos + |e1|, EditAttempts);
  }

  /** The query a fetcher cycle issues. */
  function FetcherQuery(filter: SdfFilter, limit: nat): Request {
    Query(SdfRequirements(filter), Some(limit))
  }

  /**
   * The part of a cycle after the connection, its calls starting with the
   * query at log position `pos`: the query loop (an exception from
   * via_system ends the agent), then, unless the query raised, the two
   * marking edits. A query that raised leaves the cache as it was and the
   * agent going.
   */
  function FetcherQueryPhase(sort: Sorter, c: Cache, filter: SdfFilter, limit: nat,
                             fails: nat -> bool, answers: nat -> QueryAnswer, pos: nat, nodes: Nodes): CycleResult
  {
    var answer := Limited(answers(pos), Some(limit));
    var query := Call(FetcherQuery(filter, limit), !answer.complete);
    var h := QueryLoop(sort, Buckets(c.handled, {}, {}, nodes), answer.jobs);
    if h.raised then CycleResult(false, c, h.state.nodes, [query])
    else if !answer.complete then CycleResult(true, c, h.state.nodes, [query])
    else
      var m := MarkBuckets(c.handled, h.state.copied, h.state.failed, fails, pos + 1);
      CycleResult(true, Cache(m.handled, c.lastFlush), h.state.nodes, [query] + m.calls)
  }

  /** The jobs one query hands to the loop: at most `limit` of them. */
  function QueriedJobs(answers: nat -> QueryAnswer, pos: nat, limit: nat): (jobs: seq<Job>)
    ensures |jobs| <= limit
  {
    Limited(answers(pos), Some(limit)).jobs
  }

  /**
   * The query phase ends the agent exactly when a queried job not yet
   * handled has a user log but no sdfPath; so never when every queried job
   * is one the filter selects.
   */
  lemma FetcherQueryPhaseEnds(c: Cache, filter: SdfFilter, limit: nat, fails: nat -> bool, answers: nat -> QueryAnswer,
                              pos: nat, nodes: Nodes, faults: Faults)
    ensures var jobs := QueriedJobs(answers, pos, limit);
      && (!FetcherQueryPhase(SdfSorter(faults), c, filter, limit, fails, answers, pos, nodes).alive <==>
          exists k :: 0 <= k < |jobs| && RaisesOn(c.handled, jobs[k]))
      && ((forall k :: 0 <= k < |jobs| ==> SdfAdmits(filter, jobs[k])) ==>
          FetcherQueryPhase(SdfSorter(faults), c, filter, limit, fails, answers, pos, nodes).alive)
  {
    var jobs := QueriedJobs(answers, pos, limit);
    SortJobsRaise(SdfSorter(faults), faults, Buckets(c.handled, {}, {}, nodes), jobs);
  }

  /**
   * A query that raises leaves the handled set alone and makes no edit;
   * otherwise the set only gains queried ids it did not hold, and keeps its
   * flush time.
   */
  lemma FetcherQueryPhaseCache(c: Cache, filter: SdfFilter, limit: nat, fails: nat -> bool, answers: nat -> QueryAnswer,
                               pos: nat, nodes: Nodes, faults: Faults)
    ensures var r := FetcherQueryPhase(SdfSorter(faults), c, filter, limit, fails, answers, pos, nodes);
      && r.cache.lastFlush == c.lastFlush
      && c.handled <= r.cache.handled <= c.handled + QueriedJobIds(answers, pos, limit)
      && (!Limited(answers(pos), Some(limit)).complete ==>
            r.cache == c && r.calls == [Call(FetcherQuery(filter, limit), true)])
  {
    var jobs := QueriedJobs(answers, pos, limit);
    SortJobsBounds(SdfSorter(faults), faults, Buckets(c.handled, {}, {}, nodes), jobs);
  }

  /** The ids of the jobs one query hands to the loop. */
  function QueriedJobIds(answers: nat -> QueryAnswer, pos: nat, limit: nat): set<JobId> {
    JobIds(QueriedJobs(answers, pos, limit))
  }

  /** A fetcher cycle: the flush check, the connection (the agent ends when all 999 attempts fail), then the query phase. */
  function FetcherCycle(sort: Sorter, cache: Cache, now: real, period: real, filter: SdfFilter, limit: nat,
                        fails: nat -> bool, answers: nat -> QueryAnswer, start: nat, nodes: Nodes): CycleResult
  {
    var c := Flush(cache, now, period);
    var conn := RetryCalls(Connect, fails, start, ConnectAttempts);
    if !Succeeded(conn) then CycleResult(false, c, nodes, conn)
    else
      var r := FetcherQueryPhase(sort, c, filter, limit, fails, answers, start + |conn|, nodes);
      CycleResult(r.alive, r.cache, r.nodes, conn + r.calls)
  }

  /** A connected cycle is its connection attempts followed by its query phase. */
  lemma FetcherCycleConnected(sort: Sorter, cache: Cache, now: real, period: real, filter: SdfFilter, limit: nat,
                              fails: nat -> bool, answers: nat -> QueryAnswer, start: nat, nodes: Nodes,
                              conn: seq<Call>, q: CycleResult)
    requires conn == RetryCalls(Connect, fails, start, ConnectAttempts) && Succeeded(conn)
    requires q == FetcherQueryPhase(sort, Flush(cache, now, period), filter, limit, fails, answers, start + |conn|, nodes)
    ensures FetcherCycle(sort, cache, now, period, filter, limit, fails, answers, start, nodes) == CycleResult(q.alive, q.cache, q.nodes, conn + q.calls)
  {
  }

  /** A cycle that cannot connect ends the agent after its connection attempts. */
  lemma FetcherCycleNotConnected(sort: Sorter, cache: Cache, now: real, period: real, filter: SdfFilter, limit: nat,
                                 fails: nat -> bool, answers: nat -> QueryAnswer, start: nat, nodes: Nodes, conn: seq<Call>)
    requires conn == RetryCalls(Connect, fails, start, ConnectAttempts) && !Succeeded(conn)
    ensures FetcherCycle(sort, cache, now, period, filter, limit, fails, answers, start, nodes) == CycleResult(false, Flush(cache, now, period), nodes, conn)
  {
  }

  /** A fetcher cycle with its configuration and the queue's behaviour fixed. */
  function FetcherStep(sort: Sorter, period: real, filter: SdfFilter, limit: nat, fails: nat -> bool, answers: nat -> QueryAnswer): Cycle {
    (c: Cache, now: real, pos: nat, nodes: Nodes) => FetcherCycle(sort, c, now, period, filter, limit, fails, answers, pos, nodes)
  }

  /** The query limit of the variant, a class attribute there. */
  const DefaultLimit: nat := 6000

  /** An SDFFetcher thread and its configuration. */
  class SdfFetcher {
    const flushPeriod: real
    const limit: nat
    const filter: SdfFilter
    const sleepPeriod: real

    /** `__init__`: a None flush period means one day, a None limit 6000 jobs per query. */
    constructor (flushPeriod: Option<real>, limit: Option<nat>, sleepPeriod: real)
      ensures this.flushPeriod == (if flushPeriod.None? then 86400.0 else flushPeriod.value)
      ensures this.limit == (if limit.None? then DefaultLimit else limit.value)
      ensures this.filter == CurrentSdfFilter && this.sleepPeriod == sleepPeriod
    {
      this.flushPeriod := if flushPeriod.None? then 86400.0 else flushPeriod.value;
      this.limit := if limit.None? then DefaultLimit else limit.value;
      this.filter := CurrentSdfFilter;
      this.sleepPeriod := sleepPeriod;
    }

    /** The single-script `__init__`: the older filter, the fixed limit, the periods as given. */
    constructor Variant(sleepPeriod: real, flushPeriod: real)
      ensures this.flushPeriod == flushPeriod && this.sleepPeriod == sleepPeriod
      ensures this.limit == DefaultLimit && this.filter == VariantSdfFilter
    {
      this.flushPeriod := flushPeriod;
      this.limit := DefaultLimit;
      this.filter := VariantSdfFilter;
      this.sleepPeriod := sleepPeriod;
    }

    /** One pass of the query loop: skip a handled id, else fetch and put the id in the bucket of the answer. */
    method SortOne(job: Job, handled: set<JobId>, copied: set<JobId>, failed: set<JobId>, fs: FileSystem)
      returns (copied': set<JobId>, failed': set<JobId>, raised: bool)
      modifies fs
      ensures SortJob(fs.faults, Buckets(handled, copied, failed, old(fs.nodes)), job)
              == Handled(Buckets(handled, copied', failed', fs.nodes), raised)
    {
      copied', failed', raised := copied, failed, false;
      var id := CondorJobId(job);
      if id !in handled {
        var r := FetchViaSystem(fs, job);
        if r.Raised? {
          raised := true;
        } else if r.value == Fetched {
          copied' := copied + {id};
        } else if r.value == Unfetchable {
          failed' := failed + {id};
        }
      }
    }

    /** The query loop of run over the jobs one query returned, filling the two buckets. */
    method SortQueried(ghost sort: Sorter, jobs: seq<Job>, handled: set<JobId>, fs: FileSystem)
      returns (copied: set<JobId>, failed: set<JobId>, raised: bool)
      requires Sorts(sort, fs.faults)
      modifies fs
      ensures QueryLoop(sort, Buckets(handled, {}, {}, old(fs.nodes)), jobs) == Handled(Buckets(handled, copied, failed, fs.nodes), raised)
    {
      ghost var b0 := Buckets(handled, {}, {}, fs.nodes);
      copied, failed, raised := {}, {}, false;
      var i := 0;
      assert jobs[..0] == [];
      while i < |jobs|
        invariant 0 <= i <= |jobs|
        invariant QueryLoop(sort, b0, jobs[..i]) == Handled(Buckets(handled, copied, failed, fs.nodes), false)
      {
        ghost var b := Buckets(handled, copied, failed, fs.nodes);
        var c, f, r := SortOne(jobs[i], handled, copied, failed, fs);
        QueryLoopNext(sort, b0, jobs, i, b, Handled(Buckets(handled, c, f, fs.nodes), r));
        copied, failed := c, f;
        i := i + 1;
        if r {
          raised := true;
          QueryLoopStopsAtRaise(sort, b0, jobs, i);
          return;
        }
      }
      assert jobs[..i] == jobs;
    }

    /** The two marking edits, each in its retry loop. */
    method Mark(handled: set<JobId>, copied: set<JobId>, failed: set<JobId>, schedd: Schedd)
      returns (handled': set<JobId>, ghost calls: seq<Call>)
      modifies schedd
      ensures MarkBuckets(handled, copied, failed, schedd.fails, |old(schedd.log)|) == Marking(handled', calls)
      ensures schedd.log == old(schedd.log) + calls
    {
      ghost var e1 := RetryCalls(Edit(copied, SdfCopied, MarkCopied), schedd.fails, |schedd.log|, EditAttempts);
      var ok := EditWithRetry(schedd, copied, SdfCopied, MarkCopied);
      handled' := if ok then handled + copied else handled;
      ghost var e2 := RetryCalls(Edit(failed, SdfCopied, MarkFailed), schedd.fails, |schedd.log|, EditAttempts);
      ok := EditWithRetry(schedd, failed, SdfCopied, MarkFailed);
      if ok {
        handled' := handled' + failed;
      }
      AppendCalls(old(schedd.log), e1, e2);
      calls := e1 + e2;
    }

    /** The part of a cycle after the connection: the query, the query loop and the marking edits. */
    method QueryPhase(ghost sort: Sorter, c: Cache, schedd: Schedd, fs: FileSystem) returns (alive: bool, c': Cache, ghost calls: seq<Call>)
      requires Sorts(sort, fs.faults)
      modifies schedd, fs
      ensures var r := FetcherQueryPhase(sort, c, filter, limit, schedd.fails, schedd.answers, |old(schedd.log)|, old(fs.nodes));
        && alive == r.alive && c' == r.cache && fs.nodes == r.nodes && calls == r.calls
      ensures schedd.log == old(schedd.log) + calls
    {
      var answer := schedd.Query(SdfRequirements(filter), Some(limit));
      calls := [Call(FetcherQuery(filter, limit), !answer.complete)];
      var copied, failed, raised := SortQueried(sort, answer.jobs, c.handled, fs);
      c' := c;
      alive := !raised;
      if alive && answer.complete {
        var handled;
        ghost var marks;
        handled, marks := Mark(c.handled, copied, failed, schedd);
        c' := Cache(handled, c.lastFlush);
        AppendCalls(old(schedd.log), calls, marks);
        calls := calls + marks;
      }
    }

    /** One pass of the `while True` loop of run, from the cache the previous pass left. */
    method Cycle(ghost sort: Sorter, c: Cache, now: real, schedd: Schedd, fs: FileSystem) returns (alive: bool, c': Cache, ghost calls: seq<Call>)
      requires Sorts(sort, fs.faults)
      modifies schedd, fs
      ensures var r := FetcherCycle(sort, c, now, flushPeriod, filter, limit, schedd.fails, schedd.answers, |old(schedd.log)|, old(fs.nodes));
        && alive == r.alive && c' == r.cache && fs.nodes == r.nodes && calls == r.calls
      ensures schedd.log == old(schedd.log) + calls
    {
      c' := Flush(c, now, flushPeriod);
      ghost var start := |schedd.log|;
      ghost var conn := RetryCalls(Connect, schedd.fails, start, ConnectAttempts);
      var connected := AcquireConnection(schedd);
      alive := false;
      ghost var phase: seq<Call> := [];
      if connected {
        assert |schedd.log| == start + |conn| && fs.nodes == old(fs.nodes);
        alive, c', phase := QueryPhase(sort, c', schedd, fs);
        FetcherCycleConnected(sort, c, now, flushPeriod, filter, limit, schedd.fails, schedd.answers, start, old(fs.nodes),
                              conn, CycleResult(alive, c', fs.nodes, phase));
      } else {
        FetcherCycleNotConnected(sort, c, now, flushPeriod, filter, limit, schedd.fails, schedd.answers, start, old(fs.nodes), conn);
        assert conn + phase == conn;
      }
      AppendCalls(old(schedd.log), conn, phase);
      calls := conn + phase;
    }

    /**
     * run: the handled set starts empty and the flush time at the start time;
     * then one cycle per clock reading until the agent ends.
     */
    method Run(startTime: real, clock: seq<real>, schedd: Schedd, fs: FileSystem) returns (alive: bool, cycles: nat)
      modifies schedd, fs
      ensures var R := RunCycles(FetcherStep(SdfSorter(fs.faults), flushPeriod, filter, limit, schedd.fails, schedd.answers),
                                 FreshCache(startTime), clock, |old(schedd.log)|, old(fs.nodes));
        && alive == R.alive && cycles == R.cycles && fs.nodes == R.nodes && schedd.log == old(schedd.log) + R.calls
    {
      ghost var sort := SdfSorter(fs.faults);
      assert Sorts(sort, fs.faults);
      ghost var step := FetcherStep(sort, flushPeriod, filter, limit, schedd.fails, schedd.answers);
      var cache := FreshCache(startTime);
      alive := true;
      cycles := 0;
      ghost var done: seq<Call> := [];
      ghost var whole := RunCycles(step, cache, clock, |schedd.log|, fs.nodes);
      RunSoFarStart(step, cache, clock, |schedd.log|, fs.nodes);
      while cycles < |clock| && alive
        invariant cycles <= |clock|
        invariant schedd.log == old(schedd.log) + done
        invariant alive ==> RunSoFar(whole, step, cache, clock, cycles, |schedd.log|, fs.nodes, done)
        invariant !alive ==> whole == RunResult(false, cycles, cache, fs.nodes, done)
      {
        ghost var before := schedd.log;
        ghost var nodes := fs.nodes;
        ghost var r := FetcherCycle(sort, cache, clock[cycles], flushPeriod, filter, limit, schedd.fails, schedd.answers, |before|, nodes);
        assert r == step(cache, clock[cycles], |before|, nodes);
        ghost var cache0 := cache;
        ghost var calls;
        alive, cache, calls := Cycle(sort, cache, clock[cycles], schedd, fs);
        AppendCalls(old(schedd.log), done, r.calls);
        RunSoFarStep(whole, step, cache0, clock, cycles, |before|, nodes, done, r, cache, |schedd.log|, fs.nodes, done + r.calls);
        done := done + r.calls;
        cycles := cycles + 1;
      }
      if alive {
        RunSoFarEnd(whole, step, cache, clock, |schedd.log|, fs.nodes, done);
      }
    }
  }
}
