# HGCS housekeeping agents, modelled in Dafny

HGCS runs threads ("agents") next to an HTCondor schedd. Each thread loops
forever, talking to the queue through the HTCondor Python bindings and to the
local file system:

- **LogRetriever** queries finished jobs whose output was spooled. It brings
  each job's stderr, stdout and user log to the destinations the submitter
  asked for, copying or symlinking them. Then it sets `LeaveJobInQueue` to
  `false` for the jobs it has dealt with, so the schedd may drop them.
- **SDFFetcher** queries jobs that carry an `sdfPath` not yet copied. It
  copies that file next to the job's user log, renaming `.log` to `.jdl`.
  Then it marks the job's `sdfCopied` as 1 (copied) or 2 (failed, do not
  retry).
- **CleanupDelayer** gives unfinished jobs that have no spool log a
  `LeaveJobInQueue` expression. The expression keeps them in the queue for
  `delay_time` seconds after they leave their current state.
- **XJobCleaner** force-removes (`remove-x`) jobs that have been in the
  Removed state for longer than a grace period.

The model covers the canonical agents in `lib/hgcs/agents.py` and the
single-file variant in `temp/single_script.py`. The variant has
LogRetriever, CleanupDelayer and SDFFetcher but no XJobCleaner. Its own
ThreadBase takes no arguments, so each variant agent sets its sleep period
itself. Beyond that, the variant's agents differ from the canonical ones
in their constructors, in SDFFetcher's query filter and limit, and in the
attribute their `run` reads first.

How the model is built:

- **The queue** is a class `Remote.Schedd`.
  - It holds the log of every call made so far.
  - Two oracles say, by position in that log, whether a call raises
    `RuntimeError` and what a query yields. A query yields its jobs and
    whether the iterator ended without raising.
  - Every property is proved for all oracles. That covers every way the
    schedd can fail.
- **The file system** is a class `Files.FileSystem`.
  - It maps paths to regular files or to symlinks.
  - A fixed map says which paths a write fails on, and with which `errno`.
- **Each agent** is a class holding its configuration.
  - Its methods follow the agent's `run`: connect, query, handle each job,
    write back, one `while True` pass after another.
  - Each method is proved equal to a specification function: a cycle or
    phase function, or `Loop.RunCycles` / `Loop.RunRounds` for the whole
    run.
  - The lemmas about those functions state what the agent promises.
  - The per-job step of a query loop (`LogRetrieverAgent.HandleJob`,
    `SdfFetching.SortJob`) enters the cycle functions as a parameter. The
    methods carry it as a ghost parameter together with a predicate
    (`Handles`, `Sorts`) saying that it is that step. Only `Run` fixes it.
    This keeps each proof about a cycle from unfolding the file operations
    of every job. The predicate and the parameter carry no behaviour of
    their own.
- **The handled set** and the time of the last flush are locals of `run`
  in the source. The model passes them between cycles as a
  `Bookkeeping.Cache` value.
- **Threads that end.** An exception that leaves `run` ends the thread. A
  cycle reports this as `alive == false`, and the run stops there.
- **The clock.** A run is bounded by the clock readings it is given, or by
  a number of rounds for the two agents that do not read the clock.
- **Where a run starts.** Each `Run` starts after the first statement of
  `run`. The model takes that statement to read `start_timestamp`, as
  corrected under Findings.

Where the documented behaviour and the code differ, the model follows the
code:

- **LogRetriever's handled set.**
  - An id joins the handled set when the copy succeeds, before the
    write-back edit.
  - The set is emptied once that edit is confirmed.
  - So the set holds the ids still to be written back, not the ids
    already written back.
- **A Completed job without remaps fails.** When such a job has no
  `SUBMIT_TransferOutputRemaps`, its stderr and stdout have no destination,
  so `via_system` returns False (`Retrieval.CompletedJobWithoutRemapsFails`).
- **Copy mode overwrites.** `shutil.copy2` overwrites an existing
  destination. Only `os.symlink` reports `EEXIST` for a path that already
  exists.
- **The `.log` pattern.** The dot in SDFFetcher's `.log$` pattern is not
  escaped, so any character before `log` is replaced
  (`SdfFetching.JdlNameAnyCharBeforeLog`).
- **CleanupDelayer's sleep period.** The canonical `__init__` does not pass
  `sleep_period` on, so the thread sleeps ThreadBase's default of 60
  seconds.
- **Variant LogRetriever and SDFFetcher flush period.** Their constructors
  keep `flush_period` as given. They do not turn `None` into one day.
- **Variant SDFFetcher limit.** The query limit is the class attribute
  6000. It cannot be configured.

## Model

| member | source | states |
|---|---|---|
| Jobs.CondorJobId | lib/hgcs/agents.py:23-26 | the id is the text of ClusterId, a dot, and the text of ProcId; what it promises is stated by `JobIdRoundTrip` and `JobIdInjective` |
| Jobs.JobIdRoundTrip | lib/hgcs/agents.py:23-26 | the id `ClusterId.ProcId` parses back to the job's cluster and proc numbers |
| Jobs.JobIdInjective | lib/hgcs/agents.py:23-26 | two jobs get the same id exactly when their cluster and proc numbers agree, so the id sets key jobs faithfully |
| Text.IntToStringRoundTrip | lib/hgcs/agents.py:26 | the decimal text an f-string gives an integer parses back to that integer |
| Text.IntToStringInjective | lib/hgcs/agents.py:26 | distinct integers give distinct texts |
| Text.Split | lib/hgcs/agents.py:118 | `str.split(';')` gives at least one piece and no piece holds the separator |
| Text.SplitJoinRoundTrip | lib/hgcs/agents.py:118 | joining the pieces with the separator gives the text back |
| Text.SplitWithoutSeparator | lib/hgcs/agents.py:118 | a text without the separator (such as `None`) splits into itself |
| PosixPath.Join | lib/hgcs/agents.py:112-114 | `os.path.join` ends with its second argument, and an absolute second argument replaces the first |
| PosixPath.Dirname | lib/hgcs/agents.py:331 | `os.path.dirname` is a prefix of the path |
| PosixPath.Basename | lib/hgcs/agents.py:332 | `os.path.basename` holds no slash and is a suffix of the path |
| PosixPath.SplitAtLastSlash | lib/hgcs/agents.py:331-333 | dirname and basename of `d/b` are `d` and `b`, and joining them rebuilds the path |
| PosixPath.NormComponents | lib/hgcs/agents.py:126 | after normalisation no component is empty or `.` |
| PosixPath.NormPath | lib/hgcs/agents.py:333 | `os.path.normpath` never returns the empty string, so the `not dest_path` test never fires |
| Files.IsRegular | lib/hgcs/agents.py:134 | a regular source is one that `isfile` accepts and `islink` does not |
| Files.CopyEffect | lib/hgcs/agents.py:153 | `copy2` changes only the destination, leaves a file there on success, changes nothing on error, and fails exactly when source and destination coincide or the destination faults |
| Files.SymlinkEffect | lib/hgcs/agents.py:146 | `os.symlink` changes only the destination, creates a link only where nothing was, and raises `EEXIST` exactly when the destination exists or faults with `EEXIST` |
| Files.FileSystem.Copy | lib/hgcs/agents.py:153 | the file system after the copy and the error raised are those of `CopyEffect` |
| Files.FileSystem.Symlink | lib/hgcs/agents.py:146 | the file system after the link and the error raised are those of `SymlinkEffect` |
| Remote.Limited | lib/hgcs/agents.py:274-276 | a query with a limit yields at most that many jobs, a prefix of what the queue holds; without a limit it yields everything |
| Remote.Schedd.Connect | lib/hgcs/agents.py:66 | `MySchedd()` appends one connection call to the log and raises exactly when the oracle says that call fails |
| Remote.Schedd.Query | lib/hgcs/agents.py:75-76 | a query appends one call to the log, raising exactly when the iterator did not end cleanly |
| Remote.Schedd.Edit | lib/hgcs/agents.py:92 | `schedd.edit` appends one edit of exactly the given ids, attribute and value, raising exactly when the oracle says so |
| Remote.Schedd.Act | lib/hgcs/agents.py:398 | `schedd.act` appends one call with the given action and constraint, raising exactly when the oracle says so |
| Remote.RetryCalls | lib/hgcs/agents.py:63-74 | the reference definition of a bounded retry loop: at most `n_try` calls, every one of them the same request; its shape is stated by `RetryCallsShape` |
| Remote.RetryCallsShape | lib/hgcs/agents.py:63-74 | a retry loop makes one to `n_try` calls, all but the last raised, and succeeds exactly when some attempt in range does not fail |
| Remote.RetryCallsAfterFailures | lib/hgcs/agents.py:89-101 | after `n` failed attempts the loop goes on as a fresh loop with `n` fewer attempts |
| Remote.RetryExhausted | lib/hgcs/agents.py:69-74 | when every attempt fails the loop makes exactly `n_try` failed calls and gives up |
| Remote.EditConfirmedOnThirdAttempt | lib/hgcs/agents.py:89-101 | two failed edits then a good one give exactly three calls and a confirmed edit |
| Remote.EditGivenUpAfterThreeFailures | lib/hgcs/agents.py:89-98 | three failed edits end the loop unconfirmed after three calls |
| Remote.AcquireConnection | lib/hgcs/agents.py:63-74 | the 999-attempt connection loop logs exactly the attempts of the retry specification and reports whether one succeeded |
| Remote.EditWithRetry | lib/hgcs/agents.py:89-101 | the 3-attempt edit loop logs exactly the attempts of the retry specification and reports whether the edit was confirmed |
| Bookkeeping.Flush | lib/hgcs/agents.py:59-62 | the flush check only ever forgets ids, either keeps the cache or starts afresh at the current time, and leaves the cache younger than the flush period |
| Bookkeeping.FlushForgetsOnlyWhenDue | lib/hgcs/agents.py:59-62 | a handled id survives the check exactly when the flush period has not passed |
| Loop.QueryLoop | lib/hgcs/agents.py:75-88 | the reference definition of the `for job in ...` loop: each job's step from where the previous left off, stopping at the first raise; stated by `QueryLoopStopsAtRaise` and `QueryLoopIdle` |
| Loop.QueryLoopStopsAtRaise | lib/hgcs/agents.py:75-88 | once handling a job raises, no later job of the query is looked at |
| Loop.QueryLoopRaises | lib/hgcs/agents.py:273-288 | when each step, from a state that keeps an invariant, raises exactly on the jobs a predicate picks and otherwise keeps the invariant, the loop raises exactly when one of its jobs is picked |
| Loop.QueryLoopIdle | lib/hgcs/agents.py:78-79 | jobs that are all skipped leave the loop's state as it was |
| Loop.RunCycles | lib/hgcs/agents.py:57-103 | the reference definition of `while True` for the agents that read the clock: one cycle per reading, each starting where the previous one's calls end, until a cycle ends the agent; stated by `RunCyclesCount` |
| Loop.RunRounds | lib/hgcs/agents.py:191-222 | the same for the agents that do not read the clock, over a number of rounds; stated by `RunRoundsCount` |
| Loop.RunCyclesCount | lib/hgcs/agents.py:57-103 | a run makes at most one cycle per clock reading, uses every reading while alive, and stopped early only if the agent ended |
| Loop.RunRoundsCount | lib/hgcs/agents.py:191-222 | a run of `n` rounds makes at most `n` cycles, all `n` while alive, and fewer only if the agent ended |
| Constraints.VariantSdfFilterNarrower | lib/hgcs/agents.py:233-236 | every job the variant's `sdfCopied == 0` filter admits, the canonical filter admits too; the canonical one also admits exactly the jobs with an sdfPath and no `sdfCopied` |
| Constraints.DelayValue | lib/hgcs/agents.py:181-183 | the LeaveJobInQueue expression starts with the fixed prefix and ends with a space |
| Constraints.DelayValueRoundTrip | lib/hgcs/agents.py:181-183 | the delay can be read back out of the expression |
| Constraints.DelayValueInjective | lib/hgcs/agents.py:181-183 | different delays give different expressions |
| Constraints.Truncate | lib/hgcs/agents.py:395 | `int()` of a grace period rounds toward zero |
| Constraints.TruncateMonotone | lib/hgcs/agents.py:395 | rounding toward zero never reverses an order |
| Constraints.XJobConstraint | lib/hgcs/agents.py:366-369 | the remove-x constraint starts with the fixed prefix and ends with a space |
| Constraints.XJobConstraintRoundTrip | lib/hgcs/agents.py:395 | the constraint carries the grace period rounded toward zero |
| Constraints.XJobConstraintInjective | lib/hgcs/agents.py:395 | two grace periods give the same constraint exactly when they agree after rounding |
| Constraints.GracePeriodMonotone | lib/hgcs/agents.py:366-369 | a longer grace period never selects a job a shorter one leaves alone |
| Constraints.GracePeriodBoundary | lib/hgcs/agents.py:366-369 | a Removed job is selected exactly from the moment the grace period has elapsed, and not a second earlier |
| Remaps.NameRunEnd | lib/hgcs/agents.py:123 | the run of name characters of the pattern is maximal |
| Remaps.PathRunEnd | lib/hgcs/agents.py:123 | the run of path characters of the pattern is maximal |
| Remaps.MatchAt | lib/hgcs/agents.py:123 | a match at a position has both groups non-empty and from the allowed characters, and fits in the text |
| Remaps.MatchAtSpellsPattern | lib/hgcs/agents.py:123 | a match found at a position is an occurrence of the pattern there, as `PatternAt` states it independently, and ends where the path run ends |
| Remaps.MatchAtGreedy | lib/hgcs/agents.py:123 | wherever the pattern occurs at a position, a match is found there, its name group is exactly the occurrence's, and its path group is at least as long (greedy) |
| Remaps.MatchAtPattern | lib/hgcs/agents.py:123 | a match is found at a position exactly when the pattern occurs there |
| Remaps.SearchFrom | lib/hgcs/agents.py:123 | a search result is a well-formed match |
| Remaps.SearchFromNone | lib/hgcs/agents.py:123-124 | `re.search` from a position finds nothing exactly when no later position starts a match |
| Remaps.SearchFromLeftmost | lib/hgcs/agents.py:123 | what `re.search` finds is the match at the leftmost position that starts one |
| Remaps.SearchRemap | lib/hgcs/agents.py:123 | `re.search` of the remap pattern yields only well-formed entries |
| Remaps.SearchRemapFindsPattern | lib/hgcs/agents.py:123-124 | an entry yields no match exactly when the pattern occurs nowhere in it |
| Remaps.NoEqualsNoRemap | lib/hgcs/agents.py:123-124 | an entry without `=` never matches |
| Remaps.RemapEntryRoundTrip | lib/hgcs/agents.py:123-126 | a well-formed `name=path` entry is parsed back into that name and path |
| Remaps.Target | lib/hgcs/agents.py:127-132 | an entry targets the log, else stdout, else stderr, in that order of precedence, exactly when its name equals that file's name |
| Remaps.ApplyRemap | lib/hgcs/agents.py:127-132 | an entry that targets no file changes no destination |
| Remaps.ApplyRemapOtherSlot | lib/hgcs/agents.py:127-132 | an entry leaves every destination it does not target unchanged |
| Remaps.Resolve | lib/hgcs/agents.py:122-132 | the reference definition of the `for _m in transfer_remap_list` loop: each entry applied in order; stated by `ResolveUntargeted` and `ResolveIsLastTarget` |
| Remaps.ResolveUntargeted | lib/hgcs/agents.py:122-132 | a destination no entry targets keeps its initial value |
| Remaps.ResolveIsLastTarget | lib/hgcs/agents.py:122-132 | a destination is the path of the last entry that targets it |
| Remaps.ResolveWithoutMatchingRemap | lib/hgcs/agents.py:115-132 | without matching entries stderr and stdout have no destination and the log goes to SUBMIT_UserLog |
| Remaps.NoRemapAttribute | lib/hgcs/agents.py:118 | a job without the remap attribute gets those destinations too |
| Retrieval.Transfers | lib/hgcs/agents.py:133 | the three pairs are stderr, stdout and log, in that order, each with its destination |
| Retrieval.TransferStep | lib/hgcs/agents.py:134-167 | one pair is skipped or a failure (for a Completed job) exactly when the source is not a regular file, lacks a destination exactly when none was resolved; for a regular source with a destination, copy mode makes the copy exactly when source and destination differ and the destination does not fault, symlink mode makes the link exactly when nothing is at the destination and it does not fault, `EEXIST` gives Existing and any other error Failed; only a made pair changes the file system |
| Retrieval.TransferFailsOnlyOnOtherError | lib/hgcs/agents.py:145-163 | a regular source with a destination counts against the job exactly when the write raised an error other than `EEXIST` |
| Retrieval.RunTransfers | lib/hgcs/agents.py:133-167 | the reference definition of the pair loop: one outcome per pair, each pass on the file system the previous left |
| Retrieval.RunTransfersFrame | lib/hgcs/agents.py:133-167 | the pairs change only their destination paths, and symlink mode never changes an existing path |
| Retrieval.RetrieveSpec | lib/hgcs/agents.py:105-121 | `via_system` raises exactly when the job has no UserLog, and returns True untouched when SUBMIT_UserLog is empty |
| Retrieval.RetrieveFrame | lib/hgcs/agents.py:105-168 | `via_system` touches only the job's resolved destinations |
| Retrieval.RetrieveVerdict | lib/hgcs/agents.py:133-168 | the answer is False exactly when one of the three pairs failed |
| Retrieval.NotCompletedToleratesMissingSources | lib/hgcs/agents.py:134-136 | for a job that is not Completed, missing sources are skipped and nothing changes |
| Retrieval.CompletedJobWithoutRemapsFails | lib/hgcs/agents.py:115-143 | a Completed job without remaps and with a regular stderr gets the answer False |
| Retrieval.TransferOne | lib/hgcs/agents.py:134-167 | one pass of the pair loop has the outcome and effect of `TransferStep` |
| Retrieval.TransferAll | lib/hgcs/agents.py:133-168 | the pair loop returns True exactly when no pair failed, leaving the file system of `RunTransfers` |
| Retrieval.RetrieveViaSystem | lib/hgcs/agents.py:105-168 | `via_system` raises, or returns the answer and file system of `RetrieveSpec` |
| LogRetrieverAgent.HandleJob | lib/hgcs/agents.py:77-88 | a handled id is skipped; only copy and symlink modes act; the loop raises exactly on an unhandled job without UserLog; an id joins the set exactly in copy mode when `via_system` answers True; in copy or symlink mode an unhandled job that does not raise leaves the file system exactly as `via_system` (`RetrieveSpec`) leaves it |
| LogRetrieverAgent.HandleJobsBounds | lib/hgcs/agents.py:75-88 | after the query loop the handled set has grown only by queried ids, and only in copy mode |
| LogRetrieverAgent.HandleJobsSkipsHandled | lib/hgcs/agents.py:78-79 | a query of already handled jobs changes nothing |
| LogRetrieverAgent.RetrieverQueryPhase | lib/hgcs/agents.py:75-101 | the reference definition of a cycle after the connection: the query, its loop, then the write-back; stated by `RetrieverQueryPhaseCache` and `RetrieverWriteBack` |
| LogRetrieverAgent.RetrieverCycle | lib/hgcs/agents.py:57-101 | the reference definition of one pass of `while True`: flush check, connection, query phase; stated by `RetrieverCycleGivesUp` |
| LogRetrieverAgent.RetrieverCycleGivesUp | lib/hgcs/agents.py:63-74 | when all 999 connection attempts fail the agent ends after those calls, its files untouched |
| LogRetrieverAgent.RetrieverQueryPhaseCache | lib/hgcs/agents.py:75-101 | the query phase keeps the flush time and adds only queried ids |
| LogRetrieverAgent.RetrieverWriteBack | lib/hgcs/agents.py:89-101 | after a clean query the agent edits `LeaveJobInQueue = false` of the handled ids one to three times; the edited ids are exactly the handled set the query loop ends with (the old set only, outside copy mode); a confirmed edit empties the set and an unconfirmed one keeps it |
| LogRetrieverAgent.LogRetriever.constructor | lib/hgcs/agents.py:45-51 | a `None` flush period means one day |
| LogRetrieverAgent.LogRetriever.Variant | temp/single_script.py:96-100 | the variant keeps every argument as given |
| LogRetrieverAgent.LogRetriever.HandleOne | lib/hgcs/agents.py:77-88 | one job of the query loop behaves as `HandleJob` |
| LogRetrieverAgent.LogRetriever.HandleQueried | lib/hgcs/agents.py:75-88 | the query loop behaves as the fold of `HandleJob` over the jobs |
| LogRetrieverAgent.LogRetriever.QueryPhase | lib/hgcs/agents.py:75-101 | the query and the write-back behave as `RetrieverQueryPhase` |
| LogRetrieverAgent.LogRetriever.Cycle | lib/hgcs/agents.py:57-101 | one pass of `while True` behaves as `RetrieverCycle` |
| LogRetrieverAgent.LogRetriever.Run | lib/hgcs/agents.py:53-103 | `run` starts with an empty set and the flush time at the start, then behaves as `RunCycles` of its cycle |
| SdfFetching.SdfLogPath | lib/hgcs/agents.py:325-330 | the log path is SUBMIT_UserLog when non-empty, else UserLog when non-empty, else there is none |
| SdfFetching.JdlName | lib/hgcs/agents.py:332 | the substitution keeps the length and every character before the last five, and changes the name only when it ends with any character then `log`, optionally followed by a newline |
| SdfFetching.JdlNameOfDotLog | lib/hgcs/agents.py:332 | `x.log` becomes `x.jdl` |
| SdfFetching.JdlNameAnyCharBeforeLog | lib/hgcs/agents.py:332 | any character other than a newline before `log` is replaced too, so `catalog` becomes `cat.jdl` |
| SdfFetching.JdlNameWithoutLogSuffix | lib/hgcs/agents.py:332 | a name that does not end with `log` is kept |
| SdfFetching.SdfDestination | lib/hgcs/agents.py:331-333 | the destination path is never empty |
| SdfFetching.SdfDestinationBesideLog | lib/hgcs/agents.py:331-333 | for a log `d/stem.log` the file goes to `d/stem.jdl`, normalised: beside the log, `.log` turned into `.jdl` |
| SdfFetching.FetchSpec | lib/hgcs/agents.py:321-361 | `via_system` raises exactly when a job with a log has no sdfPath |
| SdfFetching.FetchVerdicts | lib/hgcs/agents.py:334-361 | False exactly when the source is not a file; None exactly when a needed copy fails with an error other than EEXIST; True otherwise |
| SdfFetching.FetchFrame | lib/hgcs/agents.py:340-361 | only the destination may change, an existing destination is kept, and a change leaves a file there |
| SdfFetching.FetchWithoutLog | lib/hgcs/agents.py:326-330 | a job without a log path is answered True with nothing done |
| SdfFetching.FetchViaSystem | lib/hgcs/agents.py:321-361 | `via_system` raises, or returns the answer and file system of `FetchSpec` |
| SdfFetching.SortJob | lib/hgcs/agents.py:277-286 | a handled id is skipped; a new id joins the copied set exactly when `via_system` answers True, the failed set exactly when it answers False, and neither when it answers None; the file system is the one `via_system` leaves; the loop raises exactly on an unhandled job with a log and no sdfPath |
| SdfFetching.SortJobsBounds | lib/hgcs/agents.py:271-286 | the copied and failed sets of a query hold only queried ids that were not yet handled |
| SdfFetching.SortJobsRaise | lib/hgcs/agents.py:273-288 | the query loop raises exactly when some queried job raises |
| SdfFetching.MarkBuckets | lib/hgcs/agents.py:290-317 | marking only adds copied or failed ids to the handled set |
| SdfFetching.MarkBucketsEdits | lib/hgcs/agents.py:290-317 | marking makes one to three `sdfCopied = 1` edits of the copied ids, then one to three `sdfCopied = 2` edits of the failed ids, and each set joins the handled set exactly when its edit is confirmed |
| SdfFetching.FetcherQueryPhase | lib/hgcs/agents.py:271-317 | the reference definition of a cycle after the connection: the query, its loop, then the two marking edits unless the query raised; stated by `FetcherQueryPhaseEnds` and `FetcherQueryPhaseCache` |
| SdfFetching.FetcherCycle | lib/hgcs/agents.py:253-317 | the reference definition of one pass of `while True`: flush check, connection, query phase |
| SdfFetching.QueriedJobs | lib/hgcs/agents.py:274-276 | a query yields at most `limit` jobs |
| SdfFetching.FetcherQueryPhaseEnds | lib/hgcs/agents.py:273-289 | the agent ends exactly when some queried job raises, and never when every queried job passes the query filter |
| SdfFetching.FetcherQueryPhaseCache | lib/hgcs/agents.py:271-317 | the query phase keeps the flush time and adds only queried ids; a query that raises changes nothing and makes no edit |
| SdfFetching.SdfFetcher.constructor | lib/hgcs/agents.py:238-247 | `None` gives a flush period of one day and a limit of 6000 |
| SdfFetching.SdfFetcher.Variant | temp/single_script.py:280-287 | the variant uses the `sdfCopied == 0` filter and the fixed limit of 6000 |
| SdfFetching.SdfFetcher.SortOne | lib/hgcs/agents.py:277-286 | one job of the query loop behaves as `SortJob` |
| SdfFetching.SdfFetcher.SortQueried | lib/hgcs/agents.py:273-286 | the query loop behaves as the fold of `SortJob` over the jobs |
| SdfFetching.SdfFetcher.Mark | lib/hgcs/agents.py:290-317 | the two edit loops behave as `MarkBuckets` |
| SdfFetching.SdfFetcher.QueryPhase | lib/hgcs/agents.py:271-317 | the query and marking behave as `FetcherQueryPhase` |
| SdfFetching.SdfFetcher.Cycle | lib/hgcs/agents.py:253-319 | one pass of `while True` behaves as `FetcherCycle` |
| SdfFetching.SdfFetcher.Run | lib/hgcs/agents.py:249-319 | `run` behaves as `RunCycles` of its cycle from an empty set |
| Cleanup.DelayEdit | lib/hgcs/agents.py:205-211 | the edit request: `LeaveJobInQueue` of the queried ids set to the delay expression |
| Cleanup.DelayerQueryPhase | lib/hgcs/agents.py:205-220 | the reference definition of a delayer cycle after the connection; stated by `DelayerQueryPhaseEdits` |
| Cleanup.DelayerCycle | lib/hgcs/agents.py:191-222 | the reference definition of one pass of the delayer's `while True`; stated by `DelayerCycleOutcome` |
| Cleanup.CleanerCycle | lib/hgcs/agents.py:380-404 | the reference definition of one pass of the cleaner's `while True`; stated by `CleanerCycleOutcome` |
| Cleanup.DelayerQueryPhaseEdits | lib/hgcs/agents.py:205-220 | after a clean query the delayer makes one to three edits setting `LeaveJobInQueue` of exactly the queried ids to an expression carrying `delay_time`, and goes on; a raising query ends it |
| Cleanup.DelayerCycleOutcome | lib/hgcs/agents.py:191-222 | a delayer cycle goes on exactly when it connects and its query completes |
| Cleanup.CleanerCycleOutcome | lib/hgcs/agents.py:378-404 | a cleaner cycle goes on exactly when it connects, and then makes exactly one remove-x call whose constraint carries the grace period rounded toward zero, raised or not |
| Cleanup.CleanupCycleGivesUp | lib/hgcs/agents.py:193-204 | when all 999 connection attempts fail, either agent ends after exactly those calls |
| Cleanup.CleanupDelayer.constructor | lib/hgcs/agents.py:185-187 | the sleep period argument is dropped: the thread sleeps 60 seconds |
| Cleanup.CleanupDelayer.Variant | temp/single_script.py:226-229 | the variant keeps the sleep period it is given |
| Cleanup.CleanupDelayer.QueryPhase | lib/hgcs/agents.py:205-220 | the query and the edit loop behave as `DelayerQueryPhase` |
| Cleanup.CleanupDelayer.Cycle | lib/hgcs/agents.py:191-222 | one pass of `while True` behaves as `DelayerCycle` |
| Cleanup.CleanupDelayer.Run | lib/hgcs/agents.py:189-222 | `run` behaves as `RunRounds` of its cycle |
| Cleanup.XJobCleaner.constructor | lib/hgcs/agents.py:371-376 | a `None` grace period means one day |
| Cleanup.XJobCleaner.Cycle | lib/hgcs/agents.py:380-404 | one pass of `while True` behaves as `CleanerCycle` of the formatted constraint |
| Cleanup.XJobCleaner.Run | lib/hgcs/agents.py:378-404 | `run` behaves as `RunRounds` of its cycle |
| Threads.ThreadBaseInit | lib/hgcs/utils.py:80-88 | ThreadBase sets `start_timestamp` to the start time, keeps the sleep period, and sets no `startTimestamp` |
| Threads.GetAttribute | lib/hgcs/agents.py:54 | reading an attribute raises exactly when the object lacks it |
| Threads.StartMessageAsWrittenRaises | lib/hgcs/agents.py:54 | the first statement of the canonical `run` raises AttributeError on every agent |
| Threads.StartMessageReadsStartTime | temp/single_script.py:103 | reading `start_timestamp` instead gives the start time, so `run` reaches its loop |

## Left out

- Logging, `time.sleep` and the colours and files of the logger are not modelled. Their only effect on the model is that the f-string of every debug message is evaluated, which the Findings row covers.
- Clock readings are inputs: a run of LogRetriever or SDFFetcher takes one reading per cycle. The reading `run` takes before the loop is the start time. The second `time.time()` call in the flush branch is taken to return the same reading.
- `while True` is bounded: by the clock readings given, or by a number of rounds for CleanupDelayer and XJobCleaner. Nothing about a run longer than that is stated.
- Threads, `global_lock`, and the sharing of one `MySchedd` instance between threads are not modelled. Each agent is modelled alone.
- `via_condor_retrieve` is an empty method. Condor mode is modelled as doing nothing per job.
- The contents of files are not modelled, nor are `chmod`, file metadata, or what a symlink points to beyond being a link to a regular file.
- The "made but not found" branches after a successful copy or symlink cannot happen in the model, because a successful write leaves a file or link there.
- Only these exceptions are modelled: `RuntimeError` from the bindings, `OSError` from a write, and the `TypeError` a missing UserLog or sdfPath causes. Anything else the bindings or the `except Exception` clauses could meet is not modelled. In particular `os.path.join` raises a `TypeError` when a job has no `Iwd`, `Err` or `Out` (lib/hgcs/agents.py:108-113); the model's `Job.iwd`, `err` and `out` are plain strings, so such a job cannot be written and that failure is not represented.
- The warning messages of the edit-retry loops of LogRetriever and SDFFetcher format `job_id`. In a cycle where no job has been queried since the thread started, `job_id` is unbound, and a failed edit would raise `UnboundLocalError` and end the thread. The model lets the retry go on, as the authors intended.
- Cleanup.DelayEdit: the list `job_id_list` is modelled as the set of its ids. Duplicates and order, which the schedd does not depend on, are dropped.
- Jobs.CondorJobId: `ClusterId` and `ProcId` are taken to be integers. A job lacking one, which would give the text `None`, is not modelled.
- Constraints.Truncate: `int()` of an infinite or NaN grace period raises. Grace periods are modelled as reals, which have no such values.
- SdfFetching.SdfFetcher.constructor: the limit is a natural number. A negative limit, which the bindings read as "no limit", is not modelled.
- Files.CopyEffect: directories are not represented. `shutil.copy2` onto a directory writes `dir/basename(src)`, after which `isfile(dest)` is False, so LogRetriever would answer False and SDFFetcher None. The model treats every destination as a file path and answers Made or Fetched.
- Files.SymlinkEffect: `os.symlink` onto an existing directory raises `EEXIST`, which the model gives only for a path in its map; a directory that is not in the map is not represented.
- Files.CopyEffect: `SameFileError` is modelled as equal path strings. Two spellings of one path, or a destination that links to the source, are not detected as the same file.
- The file system's write faults are fixed for a whole run. A write error that clears between cycles is not modelled.
- LogRetrieverAgent.LogRetriever.Variant: the flush period is a real. A `None` flush period, which the variant keeps and which makes its flush test raise `TypeError`, is not modelled.
- SdfFetching.SdfFetcher.Variant: the flush period is a real, so a `None` flush period, which makes the variant's flush test raise `TypeError`, is not modelled.
- `lib/hgcs/utils.py` apart from ThreadBase's constructor, `lib/hgcs/hgcs_config.py`, the scripts under `bin/` and `setup.py` are not part of this model. They read configuration and start the threads.

## Findings

| source | as written | input that shows it | evidently intended | confidence | as-written member | corrected member |
|---|---|---|---|---|---|---|
| lib/hgcs/agents.py:54 | the first statement of every agent's `run` (lines 54, 190, 250 and 379) reads `self.startTimestamp`, but ThreadBase (`lib/hgcs/utils.py:85`) only sets `start_timestamp` | any canonical agent thread, for instance `LogRetriever()` started with default arguments: the f-string raises AttributeError before the loop begins | read `self.start_timestamp`, as `temp/single_script.py:103` does, so the thread reaches its loop | high; not executed | Threads.StartMessageAsWrittenRaises | Threads.StartMessageReadsStartTime |
