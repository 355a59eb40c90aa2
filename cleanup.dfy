/**
 * The two agents that only talk to the queue. CleanupDelayer gives
 * unfinished jobs without a spool log a LeaveJobInQueue expression that
 * keeps them in the queue for a while after they finish; XJobCleaner
 * force-removes (remove-x) jobs that have been in the Removed state for
 * longer than a grace period. Neither keeps anything between cycles.
 */
module Cleanup {
  import opened Wrappers
  import opened Jobs
  import opened Remote
  import opened Constraints
  import opened Loop

  /** ThreadBase's default sleep period, in seconds. */
  const DefaultSleepPeriod := 60.0
  /** CleanupDelayer's default delay_time, in seconds. */
  const DefaultDelayTime := 7200
  /** XJobCleaner's grace period when none is given, in seconds. */
  const DefaultGracePeriod := 86400.0

  /** The query a delayer cycle issues: no projection, no limit. */
  const DelayerQuery := Query(CleanupRequirements, None)

  /** The LeaveJobInQueue edit of the ids of the queried jobs. */
  function DelayEdit(jobs: seq<Job>, delay: int): Request {
    Edit(JobIds(jobs), LeaveJobInQueue, DelayValue(delay))
  }

  /**
   * One pass of the `while True` loop of CleanupDelayer.run, its calls
   * starting at log position `start`: the connection (the agent ends when
   * all 999 attempts fail); the query, whose RuntimeError is not caught and
   * ends the agent; then the edit of every queried id, tried up to three
   * times, after which the agent goes on whether or not it was confirmed.
   */
  function DelayerCycle(delay: int, fails: nat -> bool, answers: nat -> QueryAnswer, start: nat): Exchange {
    var conn := RetryCalls(Connect, fails, start, ConnectAttempts);
    if !Succeeded(conn) then Exchange(false, conn)
    else
      var q := DelayerQueryPhase(delay, fails, answers, start + |conn|);
      Exchange(q.alive, conn + q.calls)
  }

  /** The part of a delayer cycle after the connection, its calls starting at log position `pos`. */
  function DelayerQueryPhase(delay: int, fails: nat -> bool, answers: nat -> QueryAnswer, pos: nat): Exchange {
    var answer := Limited(answers(pos), None);
    var query := Call(DelayerQuery, !answer.complete);
    if !answer.complete then Exchange(false, [query])
    else Exchange(true, [query] + RetryCalls(DelayEdit(answer.jobs, delay), fails, pos + 1, EditAttempts))
  }

  /** How a delayer cycle that connects is made of its query phase. */
  lemma DelayerCycleConnected(delay: int, fails: nat -> bool, answers: nat -> QueryAnswer, start: nat,
                              conn: seq<Call>, q: Exchange)
    requires conn == RetryCalls(Connect, fails, start, ConnectAttempts) && Succeeded(conn)
    requires q == DelayerQueryPhase(delay, fails, answers, start + |conn|)
    ensures DelayerCycle(delay, fails, answers, start) == Exchange(q.alive, conn + q.calls)
  {
  }

  /** A delayer cycle that cannot connect ends the agent after its connection attempts. */
  lemma DelayerCycleNotConnected(delay: int, fails: nat -> bool, answers: nat -> QueryAnswer, start: nat, conn: seq<Call>)
    requires conn == RetryCalls(Connect, fails, start, ConnectAttempts) && !Succeeded(conn)
    ensures DelayerCycle(delay, fails, answers, start) == Exchange(false, conn)
  {
  }

  /** A delayer query phase whose query fails is that one call. */
  lemma DelayerQueryPhaseFailed(delay: int, fails: nat -> bool, answers: nat -> QueryAnswer, pos: nat)
    requires !answers(pos).complete
    ensures DelayerQueryPhase(delay, fails, answers, pos) == Exchange(false, [Call(DelayerQuery, true)])
  {
  }

  /** A delayer query phase whose query completes is that call and the edit attempts. */
  lemma DelayerQueryPhaseCompleted(delay: int, fails: nat -> bool, answers: nat -> QueryAnswer, pos: nat, edits: seq<Call>)
    requires answers(pos).complete
    requires edits == RetryCalls(DelayEdit(answers(pos).jobs, delay), fails, pos + 1, EditAttempts)
    ensures DelayerQueryPhase(delay, fails, answers, pos) == Exchange(true, [Call(DelayerQuery, false)] + edits)
  {
  }

  /**
   * After a complete query the delayer makes one to three edits, each
   * setting LeaveJobInQueue of exactly the queried ids to a value that
   * carries the delay, and goes on; after a failed query it ends.
   */
  lemma DelayerQueryPhaseEdits(delay: int, fails: nat -> bool, answers: nat -> QueryAnswer, pos: nat)
    ensures var q := DelayerQueryPhase(delay, fails, answers, pos);
      && (q.alive <==> answers(pos).complete)
      && (q.alive ==>
            && 2 <= |q.calls| <= 1 + EditAttempts
            && q.calls[0] == Call(DelayerQuery, false)
            && forall k :: 1 <= k < |q.calls| ==>
                 && q.calls[k].request.Edit?
                 && q.calls[k].request.ids == JobIds(answers(pos).jobs)
                 && q.calls[k].request.attr == LeaveJobInQueue
                 && IntBetween(DelayPrefix, q.calls[k].request.value) == Some(delay))
  {
    if answers(pos).complete {
      var req := DelayEdit(answers(pos).jobs, delay);
      var edits := RetryCalls(req, fails, pos + 1, EditAttempts);
      DelayerQueryPhaseCompleted(delay, fails, answers, pos, edits);
      RetryCallsShape(req, fails, pos + 1, EditAttempts);
      DelayValueRoundTrip(delay);
      var q := DelayerQueryPhase(delay, fails, answers, pos);
      forall k | 1 <= k < |q.calls|
        ensures q.calls[k].request == req
      {
        assert q.calls[k] == edits[k - 1];
      }
    } else {
      DelayerQueryPhaseFailed(delay, fails, answers, pos);
    }
  }

  /** A delayer cycle goes on exactly when it connects and its query runs to the end. */
  lemma DelayerCycleOutcome(delay: int, fails: nat -> bool, answers: nat -> QueryAnswer, start: nat)
    ensures var conn := RetryCalls(Connect, fails, start, ConnectAttempts);
      var r := DelayerCycle(delay, fails, answers, start);
      && (r.alive <==> Succeeded(conn) && answers(start + |conn|).complete)
      && (Succeeded(conn) ==> r.calls == conn + DelayerQueryPhase(delay, fails, answers, start + |conn|).calls)
      && (!Succeeded(conn) ==> r.calls == conn)
  {
    var conn := RetryCalls(Connect, fails, start, ConnectAttempts);
    if Succeeded(conn) {
      var q := DelayerQueryPhase(delay, fails, answers, start + |conn|);
      DelayerQueryPhaseEdits(delay, fails, answers, start + |conn|);
      DelayerCycleConnected(delay, fails, answers, start, conn, q);
    } else {
      DelayerCycleNotConnected(delay, fails, answers, start, conn);
    }
  }

  /** A delayer cycle with the queue's behaviour fixed, from the log position of its first call. */
  function DelayerRound(delay: int, fails: nat -> bool, answers: nat -> QueryAnswer): Round {
    (pos: nat) => DelayerCycle(delay, fails, answers, pos)
  }

  /**
   * One pass of the `while True` loop of XJobCleaner.run, its calls starting
   * at log position `start`, `constraint` being the requirements it formats:
   * the connection (the agent ends when all 999 attempts fail), then one
   * remove-x action, not retried, after which the agent goes on whether or
   * not it raised.
   */
  function CleanerCycle(constraint: string, fails: nat -> bool, start: nat): Exchange {
    var conn := RetryCalls(Connect, fails, start, ConnectAttempts);
    if !Succeeded(conn) then Exchange(false, conn)
    else Exchange(true, conn + [Call(Act(RemoveX, constraint), fails(start + |conn|))])
  }

  /** How a cleaner cycle that connects is made of its one action. */
  lemma CleanerCycleConnected(constraint: string, fails: nat -> bool, start: nat, conn: seq<Call>, raised: bool)
    requires conn == RetryCalls(Connect, fails, start, ConnectAttempts) && Succeeded(conn)
    requires raised == fails(start + |conn|)
    ensures CleanerCycle(constraint, fails, start) == Exchange(true, conn + [Call(Act(RemoveX, constraint), raised)])
  {
  }

  /** A cleaner cycle that cannot connect ends the agent after its connection attempts. */
  lemma CleanerCycleNotConnected(constraint: string, fails: nat -> bool, start: nat, conn: seq<Call>)
    requires conn == RetryCalls(Connect, fails, start, ConnectAttempts) && !Succeeded(conn)
    ensures CleanerCycle(constraint, fails, start) == Exchange(false, conn)
  {
  }

  /**
   * A cleaner cycle goes on exactly when it connects; it then makes exactly
   * one remove-x call, whose constraint carries the grace period rounded
   * toward zero.
   */
  lemma CleanerCycleOutcome(grace: real, fails: nat -> bool, start: nat)
    ensures var conn := RetryCalls(Connect, fails, start, ConnectAttempts);
      var r := CleanerCycle(XJobConstraint(grace), fails, start);
      && (r.alive <==> Succeeded(conn))
      && (r.alive ==> exists c: Call ::
            && r.calls == conn + [c]
            && c.request.Act? && c.request.action == RemoveX
            && IntBetween(XJobPrefix, c.request.constraint) == Some(Truncate(grace)))
  {
    XJobConstraintRoundTrip(grace);
  }

  /** A cleaner cycle for a grace period, with the queue's behaviour fixed, from the log position of its first call. */
  function CleanerRound(grace: real, fails: nat -> bool): Round {
    (pos: nat) => CleanerCycle(XJobConstraint(grace), fails, pos)
  }

  /** When all 999 connection attempts fail, either cleanup agent ends having made no other call. */
  lemma CleanupCycleGivesUp(delay: int, constraint: string, fails: nat -> bool, answers: nat -> QueryAnswer, start: nat)
    requires forall j :: start <= j < start + ConnectAttempts ==> fails(j)
    ensures DelayerCycle(delay, fails, answers, start) == Exchange(false, Failures(Connect, ConnectAttempts))
    ensures CleanerCycle(constraint, fails, start) == Exchange(false, Failures(Connect, ConnectAttempts))
  {
    RetryExhausted(Connect, fails, start, ConnectAttempts);
  }

  /** A CleanupDelayer thread and its configuration. */
  class CleanupDelayer {
    const delayTime: int
    const sleepPeriod: real

    /** `__init__`: the sleep period argument is not passed on, so the thread sleeps ThreadBase's default. */
    constructor (sleepPeriod: real, delayTime: int)
      ensures this.sleepPeriod == DefaultSleepPeriod && this.delayTime == delayTime
    {
      this.sleepPeriod := DefaultSleepPeriod;
      this.delayTime := delayTime;
    }

    /** The single-script `__init__`, which keeps the sleep period it is given. */
    constructor Variant(sleepPeriod: real, delayTime: int)
      ensures this.sleepPeriod == sleepPeriod && this.delayTime == delayTime
    {
      this.sleepPeriod := sleepPeriod;
      this.delayTime := delayTime;
    }

    /** The part of a cycle after the connection: the query, then the edit of the queried ids. */
    method QueryPhase(schedd: Schedd) returns (alive: bool, ghost calls: seq<Call>)
      modifies schedd
      ensures Exchange(alive, calls) == DelayerQueryPhase(delayTime, schedd.fails, schedd.answers, |old(schedd.log)|)
      ensures schedd.log == old(schedd.log) + calls
    {
      ghost var pos := |schedd.log|;
      var answer := schedd.Query(CleanupRequirements, None);
      assert answer == schedd.answers(pos);
      alive := false;
      calls := [Call(DelayerQuery, !answer.complete)];
      if answer.complete {
        ghost var edit := RetryCalls(DelayEdit(answer.jobs, delayTime), schedd.fails, pos + 1, EditAttempts);
        var _ := EditWithRetry(schedd, JobIds(answer.jobs), LeaveJobInQueue, DelayValue(delayTime));
        AppendCalls(old(schedd.log), calls, edit);
        calls := calls + edit;
        alive := true;
        DelayerQueryPhaseCompleted(delayTime, schedd.fails, schedd.answers, pos, edit);
      } else {
        DelayerQueryPhaseFailed(delayTime, schedd.fails, schedd.answers, pos);
      }
    }

    /** One pass of the `while True` loop of run. */
    method Cycle(schedd: Schedd) returns (alive: bool, ghost calls: seq<Call>)
      modifies schedd
      ensures Exchange(alive, calls) == DelayerCycle(delayTime, schedd.fails, schedd.answers, |old(schedd.log)|)
      ensures schedd.log == old(schedd.log) + calls
    {
      ghost var start := |schedd.log|;
      ghost var conn := RetryCalls(Connect, schedd.fails, start, ConnectAttempts);
      var connected := AcquireConnection(schedd);
      alive := false;
      ghost var phase: seq<Call> := [];
      if connected {
        assert |schedd.log| == start + |conn|;
        alive, phase := QueryPhase(schedd);
        DelayerCycleConnected(delayTime, schedd.fails, schedd.answers, start, conn, Exchange(alive, phase));
      } else {
        DelayerCycleNotConnected(delayTime, schedd.fails, schedd.answers, start, conn);
        assert conn + phase == conn;
      }
      AppendCalls(old(schedd.log), conn, phase);
      calls := conn + phase;
    }

    /** run, bounded to `rounds` cycles: one cycle after the other until one ends the agent. */
    method Run(rounds: nat, schedd: Schedd) returns (alive: bool, cycles: nat)
      modifies schedd
      ensures var R := RunRounds(DelayerRound(delayTime, schedd.fails, schedd.answers), rounds, |old(schedd.log)|);
        && alive == R.alive && cycles == R.cycles && schedd.log == old(schedd.log) + R.calls
    {
      ghost var round := DelayerRound(delayTime, schedd.fails, schedd.answers);
      ghost var whole := RunRounds(round, rounds, |schedd.log|);
      ghost var done: seq<Call> := [];
      RoundsSoFarStart(round, rounds, |schedd.log|);
      alive := true;
      cycles := 0;
      while cycles < rounds && alive
        invariant cycles <= rounds
        invariant schedd.log == old(schedd.log) + done
        invariant alive ==> RoundsSoFar(whole, round, rounds, cycles, |schedd.log|, done)
        invariant !alive ==> whole == Tally(false, cycles, done)
      {
        ghost var before := |schedd.log|;
        ghost var e := DelayerCycle(delayTime, schedd.fails, schedd.answers, before);
        assert e == round(before);
        ghost var calls;
        alive, calls := Cycle(schedd);
        AppendCalls(old(schedd.log), done, calls);
        RoundsSoFarStep(whole, round, rounds, cycles, before, done, e, |schedd.log|, done + calls);
        done := done + calls;
        cycles := cycles + 1;
      }
      if alive {
        RoundsSoFarEnd(whole, round, rounds, |schedd.log|, done);
      }
    }
  }

  /** An XJobCleaner thread and its configuration. */
  class XJobCleaner {
    const gracePeriod: real
    const sleepPeriod: real

    /** `__init__`: a None grace period means one day. */
    constructor (gracePeriod: Option<real>, sleepPeriod: real)
      ensures this.gracePeriod == (if gracePeriod.None? then DefaultGracePeriod else gracePeriod.value)
      ensures this.sleepPeriod == sleepPeriod
    {
      this.gracePeriod := if gracePeriod.None? then DefaultGracePeriod else gracePeriod.value;
      this.sleepPeriod := sleepPeriod;
    }

    /** One pass of the `while True` loop of run. */
    method Cycle(schedd: Schedd) returns (alive: bool, ghost calls: seq<Call>)
      modifies schedd
      ensures Exchange(alive, calls) == CleanerCycle(XJobConstraint(gracePeriod), schedd.fails, |old(schedd.log)|)
      ensures schedd.log == old(schedd.log) + calls
    {
      ghost var start := |schedd.log|;
      ghost var conn := RetryCalls(Connect, schedd.fails, start, ConnectAttempts);
      var connected := AcquireConnection(schedd);
      alive := false;
      ghost var phase: seq<Call> := [];
      if connected {
        assert |schedd.log| == start + |conn|;
        var requirements := XJobConstraint(gracePeriod);
        var ok := schedd.Act(RemoveX, requirements);
        phase := [Call(Act(RemoveX, requirements), !ok)];
        alive := true;
        CleanerCycleConnected(requirements, schedd.fails, start, conn, !ok);
      } else {
        CleanerCycleNotConnected(XJobConstraint(gracePeriod), schedd.fails, start, conn);
        assert conn + phase == conn;
      }
      AppendCalls(old(schedd.log), conn, phase);
      calls := conn + phase;
    }

    /** run, bounded to `rounds` cycles: one cycle after the other until one ends the agent. */
    method Run(rounds: nat, schedd: Schedd) returns (alive: bool, cycles: nat)
      modifies schedd
      ensures var R := RunRounds(CleanerRound(gracePeriod, schedd.fails), rounds, |old(schedd.log)|);
        && alive == R.alive && cycles == R.cycles && schedd.log == old(schedd.log) + R.calls
    {
      ghost var round := CleanerRound(gracePeriod, schedd.fails);
      ghost var whole := RunRounds(round, rounds, |schedd.log|);
      ghost var done: seq<Call> := [];
      RoundsSoFarStart(round, rounds, |schedd.log|);
      alive := true;
      cycles := 0;
      while cycles < rounds && alive
        invariant cycles <= rounds
        invariant schedd.log == old(schedd.log) + done
        invariant alive ==> RoundsSoFar(whole, round, rounds, cycles, |schedd.log|, done)
        invariant !alive ==> whole == Tally(false, cycles, done)
      {
        ghost var before := |schedd.log|;
        ghost var e := CleanerCycle(XJobConstraint(gracePeriod), schedd.fails, before);
        assert e == round(before);
        ghost var calls;
        alive, calls := Cycle(schedd);
        AppendCalls(old(schedd.log), done, calls);
        RoundsSoFarStep(whole, round, rounds, cycles, before, done, e, |schedd.log|, done + calls);
        done := done + calls;
        cycles := cycles + 1;
      }
      if alive {
        RoundsSoFarEnd(whole, round, rounds, |schedd.log|, done);
      }
    }
  }
}
