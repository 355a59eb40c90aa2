/**
 * The `while True` loop every agent's run method has: one cycle after the
 * other, each from the cache and file system the previous one left, until a
 * cycle ends the agent. A run here is bounded by a sequence of clock
 * readings, one per cycle.
 */
module Loop {
  import opened Jobs
  import opened Files
  import opened Remote
  import opened Bookkeeping

  /** Where a query loop stopped, and whether it stopped because a step raised. */
  datatype Handled<S> = Handled(state: S, raised: bool)

  /**
   * The `for job in jobs_iter` loop of a cycle: the step applied to each
   * queried job in order, from the state the previous job left; an
   * exception from a step ends the loop where it is raised.
   */
  function QueryLoop<S>(step: (S, Job) -> Handled<S>, s: S, jobs: seq<Job>): Handled<S>
    decreases |jobs|
  {
    if jobs == [] then Handled(s, false)
    else
      var h := QueryLoop(step, s, jobs[..|jobs| - 1]);
      if h.raised then h else step(h.state, jobs[|jobs| - 1])
  }

  /** The loop after one more job: the step applied where the first i jobs left off. */
  lemma QueryLoopNext<S>(step: (S, Job) -> Handled<S>, s0: S, jobs: seq<Job>, i: nat, s: S, next: Handled<S>)
    requires i < |jobs|
    requires QueryLoop(step, s0, jobs[..i]) == Handled(s, false)
    requires step(s, jobs[i]) == next
    ensures QueryLoop(step, s0, jobs[..i + 1]) == next
  {
    assert jobs[..i + 1][..i] == jobs[..i];
  }

  /** Once a step has raised, the jobs after it are not handled. */
  lemma {:induction false} QueryLoopStopsAtRaise<S>(step: (S, Job) -> Handled<S>, s: S, jobs: seq<Job>, n: nat)
    requires n <= |jobs| && QueryLoop(step, s, jobs[..n]).raised
    ensures QueryLoop(step, s, jobs) == QueryLoop(step, s, jobs[..n])
    decreases |jobs| - n
  {
    if n < |jobs| {
      assert jobs[..n + 1][..n] == jobs[..n];
      QueryLoopStopsAtRaise(step, s, jobs, n + 1);
    } else {
      assert jobs[..n] == jobs;
    }
  }

  /**
   * When, from every state that keeps an invariant, a step raises exactly on
   * the jobs `raises` picks and otherwise keeps the invariant, the loop
   * raises exactly when one of its jobs is such a job.
   */
  lemma {:induction false} QueryLoopRaises<S>(step: (S, Job) -> Handled<S>, s: S, jobs: seq<Job>, keep: S -> bool, raises: Job -> bool)
    requires keep(s)
    requires forall t: S, job: Job :: keep(t) ==> (step(t, job).raised <==> raises(job))
    requires forall t: S, job: Job :: keep(t) && !step(t, job).raised ==> keep(step(t, job).state)
    ensures QueryLoop(step, s, jobs).raised <==> exists k :: 0 <= k < |jobs| && raises(jobs[k])
    ensures !QueryLoop(step, s, jobs).raised ==> keep(QueryLoop(step, s, jobs).state)
    decreases |jobs|
  {
    if jobs != [] {
      var prefix := jobs[..|jobs| - 1];
      QueryLoopRaises(step, s, prefix, keep, raises);
      assert forall k :: 0 <= k < |prefix| ==> prefix[k] == jobs[k];
      if !QueryLoop(step, s, prefix).raised && !raises(jobs[|jobs| - 1]) {
        assert forall k :: 0 <= k < |jobs| ==> !raises(jobs[k]) by {
          forall k | 0 <= k < |jobs| ensures !raises(jobs[k]) {
            if k < |prefix| { assert jobs[k] == prefix[k]; }
          }
        }
      }
    }
  }

  /** A step that leaves every job's state alone and never raises leaves the whole loop so. */
  lemma {:induction false} QueryLoopIdle<S>(step: (S, Job) -> Handled<S>, s: S, jobs: seq<Job>)
    requires forall k :: 0 <= k < |jobs| ==> step(s, jobs[k]) == Handled(s, false)
    ensures QueryLoop(step, s, jobs) == Handled(s, false)
    decreases |jobs|
  {
    if jobs != [] {
      var prefix := jobs[..|jobs| - 1];
      assert forall k :: 0 <= k < |prefix| ==> prefix[k] == jobs[k];
      QueryLoopIdle(step, s, prefix);
    }
  }

  /** One cycle's effect: whether the agent goes on, its cache, the file system, the calls it made. */
  datatype CycleResult = CycleResult(alive: bool, cache: Cache, nodes: Nodes, calls: seq<Call>)

  /** A cycle of some agent: from the cache, the clock reading, the log position of its first call and the file system. */
  type Cycle = (Cache, real, nat, Nodes) -> CycleResult

  /** What a run did: whether the agent is still going, how many cycles ran, and where they left things. */
  datatype RunResult = RunResult(alive: bool, cycles: nat, cache: Cache, nodes: Nodes, calls: seq<Call>)

  /** The cycles over the readings in order, each starting where the previous one's calls end. */
  function RunCycles(step: Cycle, cache: Cache, clock: seq<real>, pos: nat, nodes: Nodes): RunResult
    decreases |clock|
  {
    if clock == [] then RunResult(true, 0, cache, nodes, [])
    else
      var r := step(cache, clock[0], pos, nodes);
      if !r.alive then RunResult(false, 1, r.cache, r.nodes, r.calls)
      else
        var rest := RunCycles(step, r.cache, clock[1..], pos + |r.calls|, r.nodes);
        RunResult(rest.alive, rest.cycles + 1, rest.cache, rest.nodes, r.calls + rest.calls)
  }

  /** A run counts one cycle per reading it used, and it stops early only when a cycle ended the agent. */
  lemma {:induction false} RunCyclesCount(step: Cycle, cache: Cache, clock: seq<real>, pos: nat, nodes: Nodes)
    ensures var run := RunCycles(step, cache, clock, pos, nodes);
      && run.cycles <= |clock|
      && (run.alive ==> run.cycles == |clock|)
      && (clock != [] && run.cycles < |clock| ==> !run.alive)
    decreases |clock|
  {
    if clock != [] {
      var r := step(cache, clock[0], pos, nodes);
      if r.alive {
        RunCyclesCount(step, r.cache, clock[1..], pos + |r.calls|, r.nodes);
      }
    }
  }

  /**
   * The invariant of a run's loop after i cycles: the whole run is the
   * `done` calls of those cycles followed by the run over the readings left,
   * from the cache and file system they left.
   */
  predicate RunSoFar(whole: RunResult, step: Cycle, cache: Cache, clock: seq<real>, i: nat, pos: nat,
                     nodes: Nodes, done: seq<Call>)
    requires i <= |clock|
  {
    var rest := RunCycles(step, cache, clock[i..], pos, nodes);
    whole == RunResult(rest.alive, rest.cycles + i, rest.cache, rest.nodes, done + rest.calls)
  }

  /** Before the first cycle, the run left is the whole run. */
  lemma RunSoFarStart(step: Cycle, cache: Cache, clock: seq<real>, pos: nat, nodes: Nodes)
    ensures RunSoFar(RunCycles(step, cache, clock, pos, nodes), step, cache, clock, 0, pos, nodes, [])
  {
    assert clock[0..] == clock;
    var whole := RunCycles(step, cache, clock, pos, nodes);
    assert [] + whole.calls == whole.calls;
  }

  /**
   * One more cycle, with result r, keeps the invariant with the cache, file
   * system, log position and calls it leaves, or, when it ends the agent,
   * completes the whole run.
   */
  lemma RunSoFarStep(whole: RunResult, step: Cycle, cache: Cache, clock: seq<real>, i: nat, pos: nat,
                     nodes: Nodes, done: seq<Call>, r: CycleResult,
                     cache': Cache, pos': nat, nodes': Nodes, done': seq<Call>)
    requires i < |clock|
    requires RunSoFar(whole, step, cache, clock, i, pos, nodes, done)
    requires r == step(cache, clock[i], pos, nodes)
    requires cache' == r.cache && pos' == pos + |r.calls| && nodes' == r.nodes && done' == done + r.calls
    ensures r.alive ==> RunSoFar(whole, step, cache', clock, i + 1, pos', nodes', done')
    ensures !r.alive ==> whole == RunResult(false, i + 1, cache', nodes', done')
  {
    assert clock[i..][0] == clock[i] && clock[i..][1..] == clock[i + 1..];
    if r.alive {
      var rest := RunCycles(step, r.cache, clock[i + 1..], pos + |r.calls|, r.nodes);
      assert done + (r.calls + rest.calls) == (done + r.calls) + rest.calls;
    } else {
      assert done + r.calls + [] == done + r.calls;
    }
  }

  /** Appending the calls of one more cycle to those already made. */
  lemma AppendCalls(log: seq<Call>, done: seq<Call>, calls: seq<Call>)
    ensures log + (done + calls) == (log + done) + calls
  {
  }

  /** With every reading used, the run is what the cycles did. */
  lemma RunSoFarEnd(whole: RunResult, step: Cycle, cache: Cache, clock: seq<real>, pos: nat, nodes: Nodes, done: seq<Call>)
    requires RunSoFar(whole, step, cache, clock, |clock|, pos, nodes, done)
    ensures whole == RunResult(true, |clock|, cache, nodes, done)
  {
    assert clock[|clock|..] == [];
    assert done + [] == done;
  }

  /** One cycle of an agent that keeps nothing between cycles and touches no file: whether it goes on, and its calls. */
  datatype Exchange = Exchange(alive: bool, calls: seq<Call>)

  /** Such a cycle, from the log position of its first call. */
  type Round = nat -> Exchange

  /** What a run of such cycles did: whether the agent is still going, how many cycles ran, their calls. */
  datatype Tally = Tally(alive: bool, cycles: nat, calls: seq<Call>)

  /** At most n cycles in order, each starting where the previous one's calls end, until one ends the agent. */
  function RunRounds(round: Round, n: nat, pos: nat): Tally
    decreases n
  {
    if n == 0 then Tally(true, 0, [])
    else
      var e := round(pos);
      if !e.alive then Tally(false, 1, e.calls)
      else
        var rest := RunRounds(round, n - 1, pos + |e.calls|);
        Tally(rest.alive, rest.cycles + 1, e.calls + rest.calls)
  }

  /** A run of n rounds counts the cycles it ran, and stops early only when a cycle ended the agent. */
  lemma {:induction false} RunRoundsCount(round: Round, n: nat, pos: nat)
    ensures var run := RunRounds(round, n, pos);
      && run.cycles <= n
      && (run.alive ==> run.cycles == n)
      && (n > 0 && run.cycles < n ==> !run.alive)
    decreases n
  {
    if n > 0 {
      var e := round(pos);
      if e.alive {
        RunRoundsCount(round, n - 1, pos + |e.calls|);
      }
    }
  }

  /** The invariant of the loop after i of n rounds: the `done` calls followed by the rounds left. */
  predicate RoundsSoFar(whole: Tally, round: Round, n: nat, i: nat, pos: nat, done: seq<Call>)
    requires i <= n
  {
    var rest := RunRounds(round, n - i, pos);
    whole == Tally(rest.alive, rest.cycles + i, done + rest.calls)
  }

  /** Before the first round, the rounds left are the whole run. */
  lemma RoundsSoFarStart(round: Round, n: nat, pos: nat)
    ensures RoundsSoFar(RunRounds(round, n, pos), round, n, 0, pos, [])
  {
    var whole := RunRounds(round, n, pos);
    assert [] + whole.calls == whole.calls;
  }

  /** One more round, with exchange e, keeps the invariant or, when it ends the agent, completes the run. */
  lemma RoundsSoFarStep(whole: Tally, round: Round, n: nat, i: nat, pos: nat, done: seq<Call>,
                        e: Exchange, pos': nat, done': seq<Call>)
    requires i < n
    requires RoundsSoFar(whole, round, n, i, pos, done)
    requires e == round(pos) && pos' == pos + |e.calls| && done' == done + e.calls
    ensures e.alive ==> RoundsSoFar(whole, round, n, i + 1, pos', done')
    ensures !e.alive ==> whole == Tally(false, i + 1, done')
  {
    if e.alive {
      var rest := RunRounds(round, n - i - 1, pos');
      assert done + (e.calls + rest.calls) == (done + e.calls) + rest.calls;
    } else {
      assert done + e.calls + [] == done + e.calls;
    }
  }

  /** With all n rounds run, the run is what they did. */
  lemma RoundsSoFarEnd(whole: Tally, round: Round, n: nat, pos: nat, done: seq<Call>)
    requires RoundsSoFar(whole, round, n, n, pos, done)
    ensures whole == Tally(true, n, done)
  {
    assert done + [] == done;
  }
}
