/**
 * The remote job queue (the HTCondor schedd) as the agents use it: a
 * connection, filtered queries, attribute edits on sets of job ids and bulk
 * actions. Every call may raise; which ones do is an arbitrary oracle
 * indexed by the position of the call in the queue's call log.
 */
module Remote {
  import opened Wrappers
  import opened Jobs

  datatype JobAction = RemoveX

  datatype Request =
    | Connect
    | Query(constraint: string, limit: Option<nat>)
    | Edit(ids: set<JobId>, attr: string, value: string)
    | Act(action: JobAction, constraint: string)

  /** One call to the remote queue and whether it raised RuntimeError. */
  datatype Call = Call(request: Request, raised: bool)

  /** What an xquery iterator yields before it ends, and whether it ended without raising. */
  datatype QueryAnswer = QueryAnswer(jobs: seq<Job>, complete: bool)

  /** The answer cut to at most `limit` jobs, as the queue applies a query's limit. */
  function Limited(a: QueryAnswer, limit: Option<nat>): (r: QueryAnswer)
    ensures limit.Some? ==> |r.jobs| <= limit.value
    ensures limit.None? ==> r == a
    ensures |r.jobs| <= |a.jobs| && r.jobs == a.jobs[..|r.jobs|]
    ensures !a.complete && limit.Some? && |a.jobs| <= limit.value ==> !r.complete
  {
    if limit.Some? && |a.jobs| > limit.value then QueryAnswer(a.jobs[..limit.value], true) else a
  }

  class Schedd {
    /** fails(i): the i-th call of the log raises. */
    const fails: nat -> bool
    /** answers(i): what the query issued as the i-th call yields. */
    const answers: nat -> QueryAnswer
    /** Every call issued so far, in order. */
    var log: seq<Call>

    constructor (fails: nat -> bool, answers: nat -> QueryAnswer)
      ensures this.fails == fails && this.answers == answers && log == []
    {
      this.fails := fails;
      this.answers := answers;
      log := [];
    }

    /** MySchedd(): locating the schedd, which raises RuntimeError when it cannot. */
    method Connect() returns (ok: bool)
      modifies this
      ensures ok == !fails(|old(log)|)
      ensures log == old(log) + [Call(Request.Connect, !ok)]
    {
      ok := !fails(|log|);
      log := log + [Call(Request.Connect, !ok)];
    }

    /** schedd.xquery(constraint, projection, limit), iterated to its end or to the RuntimeError it raises. */
    method Query(constraint: string, limit: Option<nat>) returns (answer: QueryAnswer)
      modifies this
      ensures answer == Limited(answers(|old(log)|), limit)
      ensures log == old(log) + [Call(Request.Query(constraint, limit), !answer.complete)]
    {
      answer := Limited(answers(|log|), limit);
      log := log + [Call(Request.Query(constraint, limit), !answer.complete)];
    }

    /** schedd.edit(ids, attr, value). */
    method Edit(ids: set<JobId>, attr: string, value: string) returns (ok: bool)
      modifies this
      ensures ok == !fails(|old(log)|)
      ensures log == old(log) + [Call(Request.Edit(ids, attr, value), !ok)]
    {
      ok := !fails(|log|);
      log := log + [Call(Request.Edit(ids, attr, value), !ok)];
    }

    /** schedd.act(action, constraint). */
    method Act(action: JobAction, constraint: string) returns (ok: bool)
      modifies this
      ensures ok == !fails(|old(log)|)
      ensures log == old(log) + [Call(Request.Act(action, constraint), !ok)]
    {
      ok := !fails(|log|);
      log := log + [Call(Request.Act(action, constraint), !ok)];
    }
  }

  /** Attempts at locating the schedd before an agent gives up and ends. */
  const ConnectAttempts := 999
  /** Attempts at one write-back edit before the cycle gives up on it. */
  const EditAttempts := 3

  /**
   * The calls a bounded retry of `req` issues when it starts at log position
   * `start`: failed attempts until one succeeds or `attempts` are used up.
   */
  function RetryCalls(req: Request, fails: nat -> bool, start: nat, attempts: nat): (calls: seq<Call>)
    ensures |calls| <= attempts
    ensures forall k :: 0 <= k < |calls| ==> calls[k].request == req
    decreases attempts
  {
    if attempts == 0 then []
    else if !fails(start) then [Call(req, false)]
    else [Call(req, true)] + RetryCalls(req, fails, start + 1, attempts - 1)
  }

  /** The last attempt of a retry did not raise. */
  predicate Succeeded(calls: seq<Call>) {
    calls != [] && !calls[|calls| - 1].raised
  }

  function Failures(req: Request, n: nat): (calls: seq<Call>)
    ensures |calls| == n && forall k :: 0 <= k < n ==> calls[k] == Call(req, true)
  {
    seq(n, _ => Call(req, true))
  }

  /**
   * A bounded retry issues at least one and at most `attempts` calls; every
   * call but the last raised; it succeeds exactly when one of the first
   * `attempts` calls does not raise, and then it stops at the first such call.
   */
  lemma {:induction false} RetryCallsShape(req: Request, fails: nat -> bool, start: nat, attempts: nat)
    requires attempts > 0
    ensures var calls := RetryCalls(req, fails, start, attempts);
      && 1 <= |calls| <= attempts
      && (forall k :: 0 <= k < |calls| - 1 ==> calls[k].raised)
      && (forall j :: start <= j < start + |calls| - 1 ==> fails(j))
      && (Succeeded(calls) <==> exists j :: start <= j < start + attempts && !fails(j))
      && (Succeeded(calls) ==> !fails(start + |calls| - 1))
      && (!Succeeded(calls) ==> |calls| == attempts)
    decreases attempts
  {
    var calls := RetryCalls(req, fails, start, attempts);
    if fails(start) && attempts > 1 {
      var rest := RetryCalls(req, fails, start + 1, attempts - 1);
      RetryCallsShape(req, fails, start + 1, attempts - 1);
      assert calls == [Call(req, true)] + rest;
      assert Succeeded(calls) == Succeeded(rest);
      if Succeeded(calls) {
        var j :| start + 1 <= j < start + attempts && !fails(j);
      }
    }
  }

  /** After n failed attempts, the rest of a retry is a retry with n fewer attempts. */
  lemma {:induction false} RetryCallsAfterFailures(req: Request, fails: nat -> bool, start: nat, attempts: nat, n: nat)
    requires n <= attempts
    requires forall j :: start <= j < start + n ==> fails(j)
    ensures RetryCalls(req, fails, start, attempts) == Failures(req, n) + RetryCalls(req, fails, start + n, attempts - n)
    decreases n
  {
    if n > 0 {
      RetryCallsAfterFailures(req, fails, start + 1, attempts - 1, n - 1);
      assert Failures(req, n) == [Call(req, true)] + Failures(req, n - 1);
    }
  }

  /** A retry whose every attempt raises issues exactly `attempts` failed calls and does not succeed. */
  lemma RetryExhausted(req: Request, fails: nat -> bool, start: nat, attempts: nat)
    requires forall j :: start <= j < start + attempts ==> fails(j)
    ensures RetryCalls(req, fails, start, attempts) == Failures(req, attempts)
    ensures !Succeeded(RetryCalls(req, fails, start, attempts))
  {
    RetryCallsAfterFailures(req, fails, start, attempts, attempts);
    assert Failures(req, attempts) + [] == Failures(req, attempts);
  }

  /** An edit that raises twice and then succeeds is confirmed on its third and last attempt. */
  lemma EditConfirmedOnThirdAttempt(req: Request, fails: nat -> bool, start: nat)
    requires fails(start) && fails(start + 1) && !fails(start + 2)
    ensures RetryCalls(req, fails, start, EditAttempts) == [Call(req, true), Call(req, true), Call(req, false)]
    ensures Succeeded(RetryCalls(req, fails, start, EditAttempts))
  {
  }

  /** An edit that raises three times is given up after exactly three attempts. */
  lemma EditGivenUpAfterThreeFailures(req: Request, fails: nat -> bool, start: nat)
    requires fails(start) && fails(start + 1) && fails(start + 2)
    ensures RetryCalls(req, fails, start, EditAttempts) == Failures(req, 3)
    ensures !Succeeded(RetryCalls(req, fails, start, EditAttempts))
  {
  }

  /** What a retry loop has issued when it stops after n failures, with or without a success. */
  lemma RetryLoopExit(req: Request, fails: nat -> bool, start: nat, attempts: nat, n: nat, ok: bool)
    requires n <= attempts
    requires forall j :: start <= j < start + n ==> fails(j)
    requires ok ==> n < attempts && !fails(start + n)
    requires !ok ==> n == attempts
    ensures RetryCalls(req, fails, start, attempts) == Failures(req, n) + (if ok then [Call(req, false)] else [])
    ensures Succeeded(RetryCalls(req, fails, start, attempts)) == ok
  {
    RetryCallsAfterFailures(req, fails, start, attempts, n);
  }

  /** The `for i_try in range(1, n_try + 1)` loop around MySchedd(), n_try = 999. */
  method AcquireConnection(s: Schedd) returns (connected: bool)
    modifies s
    ensures s.log == old(s.log) + RetryCalls(Connect, s.fails, |old(s.log)|, ConnectAttempts)
    ensures connected == Succeeded(RetryCalls(Connect, s.fails, |old(s.log)|, ConnectAttempts))
  {
    ghost var start := |s.log|;
    connected := false;
    var i := 1;
    while i <= ConnectAttempts
      invariant 1 <= i <= ConnectAttempts + 1
      invariant s.log == old(s.log) + Failures(Connect, i - 1)
      invariant forall j :: start <= j < start + i - 1 ==> s.fails(j)
    {
      var ok := s.Connect();
      if ok {
        connected := true;
        break;
      }
      i := i + 1;
    }
    RetryLoopExit(Connect, s.fails, start, ConnectAttempts, i - 1, connected);
  }

  /** The `for i_try in range(1, n_try + 1)` loop around schedd.edit, n_try = 3. */
  method EditWithRetry(s: Schedd, ids: set<JobId>, attr: string, value: string) returns (ok: bool)
    modifies s
    ensures s.log == old(s.log) + RetryCalls(Edit(ids, attr, value), s.fails, |old(s.log)|, EditAttempts)
    ensures ok == Succeeded(RetryCalls(Edit(ids, attr, value), s.fails, |old(s.log)|, EditAttempts))
  {
    ghost var start := |s.log|;
    ok := false;
    var i := 1;
    while i <= EditAttempts
      invariant 1 <= i <= EditAttempts + 1
      invariant s.log == old(s.log) + Failures(Edit(ids, attr, value), i - 1)
      invariant forall j :: start <= j < start + i - 1 ==> s.fails(j)
    {
      var edited := s.Edit(ids, attr, value);
      if edited {
        ok := true;
        break;
      }
      i := i + 1;
    }
    RetryLoopExit(Edit(ids, attr, value), s.fails, start, EditAttempts, i - 1, ok);
  }
}
