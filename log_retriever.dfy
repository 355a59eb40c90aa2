/**
 * The LogRetriever agent: each cycle it finds finished jobs whose logs were
 * spooled, brings their files to the submitter's destinations, and writes
 * LeaveJobInQueue = false back for the jobs it has dealt with so the queue
 * may let them go.
 */
module LogRetrieverAgent {
  import opened Wrappers
  import opened Jobs
  import opened Files
  import opened Remote
  import opened Constraints
  import opened Bookkeeping
  import opened Retrieval
  import opened Loop

  /** The retrieve_mode values the loop tells apart; any other value does nothing per job. */
  const CopyMode := "copy"
  const SymlinkMode := "symlink"
  const CondorMode := "condor"

  /** The handled set and the file system while the jobs of one query are handled. */
  datatype Progress = Progress(handled: set<JobId>, nodes: Nodes)

  /** Where the query loop stopped, and whether it stopped because via_system raised. */
  type Handling = Handled<Progress>

  /**
   * One job of the query loop: a handled id is skipped; in symlink mode the
   * files are linked and the verdict ignored; in copy mode the id joins the
   * handled set when via_system returns True; in any other mode nothing happens.
   */
  function HandleJob(p: Progress, faults: Faults, job: Job, mode: string): (r: Handling)
    ensures CondorJobId(job) in p.handled ==> r == Handled(p, false)
    ensures mode != CopyMode && mode != SymlinkMode ==> r == Handled(p, false)
    ensures r.raised <==> CondorJobId(job) !in p.handled && (mode == CopyMode || mode == SymlinkMode) && job.userLog.None?
    ensures r.raised ==> r.state == p
    ensures r.state.handled == p.handled || r.state.handled == p.handled + {CondorJobId(job)}
    ensures CondorJobId(job) in r.state.handled - p.handled <==>
      mode == CopyMode && CondorJobId(job) !in p.handled && job.userLog.Some? && RetrieveSpec(p.nodes, faults, job, false).value.ok
    ensures !r.raised && CondorJobId(job) !in p.handled && (mode == CopyMode || mode == SymlinkMode) ==>
      && RetrieveSpec(p.nodes, faults, job, mode == SymlinkMode).Returned?
      && r.state.nodes == RetrieveSpec(p.nodes, faults, job, mode == SymlinkMode).value.nodes
  {
    var id := CondorJobId(job);
    if id in p.handled then Handled(p, false)
    else if mode == SymlinkMode then
      match RetrieveSpec(p.nodes, faults, job, true)
      case Raised => Handled(p, true)
      case Returned(v) => Handled(Progress(p.handled, v.nodes), false)
    else if mode == CopyMode then
      match RetrieveSpec(p.nodes, faults, job, false)
      case Raised => Handled(p, true)
      case Returned(v) => Handled(Progress(if v.ok then p.handled + {id} else p.handled, v.nodes), false)
    else Handled(p, false)
  }

  /** The step the query loop applies to each job. */
  type Handler = (Progress, Job) -> Handling

  /** LogRetriever's step, with the retrieve mode and the file system's faults fixed. */
  function RetrieverHandler(faults: Faults, mode: string): Handler {
    (p: Progress, job: Job) => HandleJob(p, faults, job, mode)
  }

  /**
   * A handler that does what HandleJob does with the given faults and mode.
   * Agreement is only drawn on where HandleJob itself is mentioned, so
   * proofs about a cycle need not look into the retrieval of each job.
   */
  ghost predicate Handles(handle: Handler, faults: Faults, mode: string) {
    forall p: Progress, job: Job {:trigger HandleJob(p, faults, job, mode)} :: handle(p, job) == HandleJob(p, faults, job, mode)
  }

  /**
   * The query loop only adds ids, and only ids of queried jobs; outside
   * copy mode it adds none.
   */
  lemma {:induction false} HandleJobsBounds(faults: Faults, mode: string, p: Progress, jobs: seq<Job>)
    ensures var h := QueryLoop(RetrieverHandler(faults, mode), p, jobs).state.handled;
      && p.handled <= h <= p.handled + JobIds(jobs)
      && (mode != CopyMode ==> h == p.handled)
    decreases |jobs|
  {
    if jobs != [] {
      var prefix := jobs[..|jobs| - 1];
      HandleJobsBounds(faults, mode, p, prefix);
      var h := QueryLoop(RetrieverHandler(faults, mode), p, prefix);
      if !h.raised {
        var _ := HandleJob(h.state, faults, jobs[|jobs| - 1], mode);
      }
      assert JobIds(prefix) <= JobIds(jobs) by {
        forall id | id in JobIds(prefix) ensures id in JobIds(jobs) {
          var k :| 0 <= k < |prefix| && CondorJobId(prefix[k]) == id;
          assert jobs[k] == prefix[k];
        }
      }
      assert CondorJobId(jobs[|jobs| - 1]) in JobIds(jobs);
    }
  }

  /** Jobs whose ids are all handled already are skipped: no file action, no change to the set. */
  lemma HandleJobsSkipsHandled(faults: Faults, mode: string, p: Progress, jobs: seq<Job>)
    requires forall k :: 0 <= k < |jobs| ==> CondorJobId(jobs[k]) in p.handled
    ensures QueryLoop(RetrieverHandler(faults, mode), p, jobs) == Handled(p, false)
  {
    forall k | 0 <= k < |jobs|
      ensures RetrieverHandler(faults, mode)(p, jobs[k]) == Handled(p, false)
    {
      var _ := HandleJob(p, faults, jobs[k], mode);
    }
    QueryLoopIdle(RetrieverHandler(faults, mode), p, jobs);
  }

  /** The query a retriever cycle issues. */
  const RetrieverQuery := Query(RetrieverRequirements, None)

  /**
   * The part of a cycle after the connection, its calls starting with the
   * query at log position `pos`: the query loop (an exception from
   * via_system or from the query ends the agent), then the
   * LeaveJobInQueue = false write-back of the handled set, which empties the
   * set once it is confirmed.
   */
  function RetrieverQueryPhase(handle: Handler, c: Cache, fails: nat -> bool, answers: nat -> QueryAnswer, pos: nat,
                               nodes: Nodes): CycleResult
  {
    var answer := Limited(answers(pos), None);
    var query := Call(RetrieverQuery, !answer.complete);
    var h := QueryLoop(handle, Progress(c.handled, nodes), answer.jobs);
    if h.raised || !answer.complete then
      CycleResult(false, Cache(h.state.handled, c.lastFlush), h.state.nodes, [query])
    else
      var ids := h.state.handled;
      var edit := RetryCalls(Edit(ids, LeaveJobInQueue, "false"), fails, pos + 1, EditAttempts);
      CycleResult(true, Cache(if Succeeded(edit) then {} else ids, c.lastFlush), h.state.nodes, [query] + edit)
  }

  /**
   * One pass of the `while True` loop of LogRetriever.run, started at log
   * position `start`: the flush check, the connection (the agent ends when
   * all 999 attempts fail), then the query phase.
   */
  function RetrieverCycle(handle: Handler, cache: Cache, now: real, period: real,
                          fails: nat -> bool, answers: nat -> QueryAnswer, start: nat, nodes: Nodes): CycleResult
  {
    var c := Flush(cache, now, period);
    var conn := RetryCalls(Connect, fails, start, ConnectAttempts);
    if !Succeeded(conn) then CycleResult(false, c, nodes, conn)
    else
      var r := RetrieverQueryPhase(handle, c, fails, answers, start + |conn|, nodes);
      CycleResult(r.alive, r.cache, r.nodes, conn + r.calls)
  }

  /** A connected cycle is its connection attempts followed by its query phase. */
  lemma RetrieverCycleConnected(handle: Handler, cache: Cache, now: real, period: real,
                                fails: nat -> bool, answers: nat -> QueryAnswer, start: nat, nodes: Nodes,
                                conn: seq<Call>, q: CycleResult)
    requires conn == RetryCalls(Connect, fails, start, ConnectAttempts) && Succeeded(conn)
    requires q == RetrieverQueryPhase(handle, Flush(cache, now, period), fails, answers, start + |conn|, nodes)
    ensures RetrieverCycle(handle, cache, now, period, fails, answers, start, nodes) == CycleResult(q.alive, q.cache, q.nodes, conn + q.calls)
  {
  }

  /** A cycle that cannot connect ends the agent after its connection attempts. */
  lemma RetrieverCycleNotConnected(handle: Handler, cache: Cache, now: real, period: real,
                                   fails: nat -> bool, answers: nat -> QueryAnswer, start: nat, nodes: Nodes,
                                   conn: seq<Call>)
    requires conn == RetryCalls(Connect, fails, start, ConnectAttempts) && !Succeeded(conn)
    ensures RetrieverCycle(handle, cache, now, period, fails, answers, start, nodes) == CycleResult(false, Flush(cache, now, period), nodes, conn)
  {
  }

  /** When all 999 connection attempts fail the agent ends, having touched nothing. */
  lemma RetrieverCycleGivesUp(handle: Handler, cache: Cache, now: real, period: real,
                              fails: nat -> bool, answers: nat -> QueryAnswer, start: nat, nodes: Nodes)
    requires forall j :: start <= j < start + ConnectAttempts ==> fails(j)
    ensures var r := RetrieverCycle(handle, cache, now, period, fails, answers, start, nodes);
      && !r.alive && r.nodes == nodes && r.cache == Flush(cache, now, period)
      && r.calls == Failures(Connect, ConnectAttempts)
  {
    RetryExhausted(Connect, fails, start, ConnectAttempts);
  }

  /**
   * Whatever the agent does with the queried jobs, its cache afterwards
   * keeps the flush time and holds only ids the flush kept or the query
   * returned.
   */
  lemma RetrieverQueryPhaseCache(c: Cache, mode: string, fails: nat -> bool, answers: nat -> QueryAnswer, pos: nat,
                                 nodes: Nodes, faults: Faults)
    ensures var r := RetrieverQueryPhase(RetrieverHandler(faults, mode), c, fails, answers, pos, nodes);
      && r.cache.lastFlush == c.lastFlush
      && r.cache.handled <= c.handled + JobIds(answers(pos).jobs)
  {
    HandleJobsBounds(faults, mode, Progress(c.handled, nodes), answers(pos).jobs);
  }

  /**
   * A query phase that lets the agent go on ends with the write-back of a
   * set that holds every id the flush kept and only queried ids besides
   * (exactly the kept ids outside copy mode). The set is emptied exactly
   * when one of the at most three edits is confirmed; when all three raise,
   * it is kept whole.
   */
  lemma RetrieverWriteBack(c: Cache, mode: string, fails: nat -> bool, answers: nat -> QueryAnswer, pos: nat,
                           nodes: Nodes, faults: Faults)
    requires RetrieverQueryPhase(RetrieverHandler(faults, mode), c, fails, answers, pos, nodes).alive
    ensures var r := RetrieverQueryPhase(RetrieverHandler(faults, mode), c, fails, answers, pos, nodes);
      var ids := QueryLoop(RetrieverHandler(faults, mode), Progress(c.handled, nodes), answers(pos).jobs).state.handled;
        && c.handled <= ids <= c.handled + JobIds(answers(pos).jobs)
        && (mode != CopyMode ==> ids == c.handled)
        && var edit := RetryCalls(Edit(ids, LeaveJobInQueue, "false"), fails, pos + 1, EditAttempts);
        && r.calls == [Call(RetrieverQuery, false)] + edit
        && 1 <= |edit| <= EditAttempts
        && (Succeeded(edit) ==> r.cache.handled == {})
        && (!Succeeded(edit) ==> r.cache.handled == ids && edit == Failures(Edit(ids, LeaveJobInQueue, "false"), EditAttempts))
  {
    var jobs := answers(pos).jobs;
    var h := QueryLoop(RetrieverHandler(faults, mode), Progress(c.handled, nodes), jobs);
    HandleJobsBounds(faults, mode, Progress(c.handled, nodes), jobs);
    var ids := h.state.handled;
    var req := Edit(ids, LeaveJobInQueue, "false");
    var edit := RetryCalls(req, fails, pos + 1, EditAttempts);
    RetryCallsShape(req, fails, pos + 1, EditAttempts);
    if !Succeeded(edit) {
      RetryExhausted(req, fails, pos + 1, EditAttempts);
    }
  }

  /** A retriever cycle with its configuration and the queue's and file system's behaviour fixed. */
  function RetrieverStep(handle: Handler, period: real, fails: nat -> bool, answers: nat -> QueryAnswer): Cycle {
    (c: Cache, now: real, pos: nat, nodes: Nodes) => RetrieverCycle(handle, c, now, period, fails, answers, pos, nodes)
  }

  /** A LogRetriever thread and its configuration. */
  class LogRetriever {
    const flushPeriod: real
    const retrieveMode: string
    const sleepPeriod: real

    /** `__init__`: a None flush period means one day. */
    constructor (flushPeriod: Option<real>, retrieveMode: string, sleepPeriod: real)
      ensures this.flushPeriod == (if flushPeriod.None? then 86400.0 else flushPeriod.value)
      ensures this.retrieveMode == retrieveMode && this.sleepPeriod == sleepPeriod
    {
      this.flushPeriod := if flushPeriod.None? then 86400.0 else flushPeriod.value;
      this.retrieveMode := retrieveMode;
      this.sleepPeriod := sleepPeriod;
    }

    /** The single-script `__init__`, which takes the flush period as given. */
    constructor Variant(retrieveMode: string, sleepPeriod: real, flushPeriod: real)
      ensures this.flushPeriod == flushPeriod && this.retrieveMode == retrieveMode && this.sleepPeriod == sleepPeriod
    {
      this.flushPeriod := flushPeriod;
      this.retrieveMode := retrieveMode;
      this.sleepPeriod := sleepPeriod;
    }

    /** One pass of the query loop: skip a handled id, else call via_system as the retrieve mode says. */
    method HandleOne(job: Job, handled: set<JobId>, fs: FileSystem) returns (handled': set<JobId>, raised: bool)
      modifies fs
      ensures HandleJob(Progress(handled, old(fs.nodes)), fs.faults, job, retrieveMode) == Handled(Progress(handled', fs.nodes), raised)
    {
      handled' := handled;
      raised := false;
      var id := CondorJobId(job);
      if id in handled {
        return;
      }
      if retrieveMode == SymlinkMode {
        var r := RetrieveViaSystem(fs, job, true);
        raised := r.Raised?;
      } else if retrieveMode == CopyMode {
        var r := RetrieveViaSystem(fs, job, false);
        raised := r.Raised?;
        if r.Returned? && r.value {
          handled' := handled + {id};
        }
      }
    }

    /**
     * The query loop of run over the jobs one query returned, updating the
     * handled set; `handle` is the loop's step, which HandleOne carries out.
     */
    method HandleQueried(ghost handle: Handler, jobs: seq<Job>, handled0: set<JobId>, fs: FileSystem) returns (handled: set<JobId>, raised: bool)
      requires Handles(handle, fs.faults, retrieveMode)
      modifies fs
      ensures QueryLoop(handle, Progress(handled0, old(fs.nodes)), jobs) == Handled(Progress(handled, fs.nodes), raised)
    {
      ghost var p0 := Progress(handled0, fs.nodes);
      handled := handled0;
      raised := false;
      var i := 0;
      assert jobs[..0] == [];
      while i < |jobs|
        invariant 0 <= i <= |jobs|
        invariant QueryLoop(handle, p0, jobs[..i]) == Handled(Progress(handled, fs.nodes), false)
      {
        ghost var p := Progress(handled, fs.nodes);
        var next, r := HandleOne(jobs[i], handled, fs);
        QueryLoopNext(handle, p0, jobs, i, p, Handled(Progress(next, fs.nodes), r));
        handled := next;
        i := i + 1;
        if r {
          raised := true;
          QueryLoopStopsAtRaise(handle, p0, jobs, i);
          return;
        }
      }
      assert jobs[..i] == jobs;
    }

    /** The part of a cycle after the connection: the query, the query loop and the write-back. */
    method QueryPhase(ghost handle: Handler, c: Cache, schedd: Schedd, fs: FileSystem) returns (alive: bool, c': Cache, ghost calls: seq<Call>)
      requires Handles(handle, fs.faults, retrieveMode)
      modifies schedd, fs
      ensures var r := RetrieverQueryPhase(handle, c, schedd.fails, schedd.answers, |old(schedd.log)|, old(fs.nodes));
        && alive == r.alive && c' == r.cache && fs.nodes == r.nodes && calls == r.calls
      ensures schedd.log == old(schedd.log) + calls
    {
      var answer := schedd.Query(RetrieverRequirements, None);
      calls := [Call(RetrieverQuery, !answer.complete)];
      var handled, raised := HandleQueried(handle, answer.jobs, c.handled, fs);
      c' := Cache(handled, c.lastFlush);
      alive := !raised && answer.complete;
      if alive {
        ghost var edit := RetryCalls(Edit(handled, LeaveJobInQueue, "false"), schedd.fails, |schedd.log|, EditAttempts);
        var ok := EditWithRetry(schedd, handled, LeaveJobInQueue, "false");
        if ok {
          c' := Cache({}, c.lastFlush);
        }
        AppendCalls(old(schedd.log), calls, edit);
        calls := calls + edit;
      }
    }

    /** One pass of the `while True` loop of run, from the cache the previous pass left. */
    method Cycle(ghost handle: Handler, c: Cache, now: real, schedd: Schedd, fs: FileSystem) returns (alive: bool, c': Cache, ghost calls: seq<Call>)
      requires Handles(handle, fs.faults, retrieveMode)
      modifies schedd, fs
      ensures var r := RetrieverCycle(handle, c, now, flushPeriod, schedd.fails, schedd.answers, |old(schedd.log)|, old(fs.nodes));
        && alive == r.alive && c' == r.cache && fs.nodes == r.nodes && calls == r.calls
      ensures schedd.log == old(schedd.log) + calls
    {
      c' := Flush(c, now, flushPeriod);
      ghost var start := |schedd.log|;
      ghost var conn := RetryCalls(Connect, schedd.fails, start, ConnectAttempts);
      var connected := AcquireConnection(schedd);
      alive := false;
      ghost var phase: seq<Call> := [];
      if connected {
        assert |schedd.log| == start + |conn| && fs.nodes == old(fs.nodes);
        alive, c', phase := QueryPhase(handle, c', schedd, fs);
        RetrieverCycleConnected(handle, c, now, flushPeriod, schedd.fails, schedd.answers, start, old(fs.nodes),
                                conn, CycleResult(alive, c', fs.nodes, phase));
      } else {
        RetrieverCycleNotConnected(handle, c, now, flushPeriod, schedd.fails, schedd.answers, start, old(fs.nodes), conn);
        assert conn + phase == conn;
      }
      AppendCalls(old(schedd.log), conn, phase);
      calls := conn + phase;
    }

    /**
     * run: the handled set starts empty and the flush time at the start time;
     * then one cycle per clock reading until the agent ends.
     */
    method Run(startTime: real, clock: seq<real>, schedd: Schedd, fs: FileSystem) returns (alive: bool, cycles: nat)
      modifies schedd, fs
      ensures var R := RunCycles(RetrieverStep(RetrieverHandler(fs.faults, retrieveMode), flushPeriod, schedd.fails, schedd.answers),
                                 FreshCache(startTime), clock, |old(schedd.log)|, old(fs.nodes));
        && alive == R.alive && cycles == R.cycles && fs.nodes == R.nodes && schedd.log == old(schedd.log) + R.calls
    {
      ghost var handle := RetrieverHandler(fs.faults, retrieveMode);
      assert Handles(handle, fs.faults, retrieveMode);
      ghost var step := RetrieverStep(handle, flushPeriod, schedd.fails, schedd.answers);
      var cache := FreshCache(startTime);
      alive := true;
      cycles := 0;
      ghost var done: seq<Call> := [];
      ghost var whole := RunCycles(step, cache, clock, |schedd.log|, fs.nodes);
      RunSoFarStart(step, cache, clock, |schedd.log|, fs.nodes);
      while cycles < |clock| && alive
        invariant cycles <= |clock|
        invariant schedd.log == old(schedd.log) + done
        invariant alive ==> RunSoFar(whole, step, cache, clock, cycles, |schedd.log|, fs.nodes, done)
        invariant !alive ==> whole == RunResult(false, cycles, cache, fs.nodes, done)
      {
        ghost var before := schedd.log;
        ghost var nodes := fs.nodes;
        ghost var r := RetrieverCycle(handle, cache, clock[cycles], flushPeriod, schedd.fails, schedd.answers, |before|, nodes);
        assert r == step(cache, clock[cycles], |before|, nodes);
        ghost var cache0 := cache;
        ghost var calls;
        alive, cache, calls := Cycle(handle, cache, clock[cycles], schedd, fs);
        AppendCalls(old(schedd.log), done, r.calls);
        RunSoFarStep(whole, step, cache0, clock, cycles, |before|, nodes, done, r, cache, |schedd.log|, fs.nodes, done + r.calls);
        done := done + r.calls;
        cycles := cycles + 1;
      }
      if alive {
        RunSoFarEnd(whole, step, cache, clock, |schedd.log|, fs.nodes, done);
      }
    }
  }
}
