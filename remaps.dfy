/**
 * LogRetriever's reading of SUBMIT_TransferOutputRemaps: the `;`-separated
 * entries, the `name=path` pattern searched in each, and the override of
 * the stderr, stdout or user-log destination whose source name matches.
 */
module Remaps {
  import opened Wrappers
  import opened Text
  import opened PosixPath
  import opened Jobs

  /** The class `[a-zA-Z0-9_.\-]` of the name group. */
  predicate IsNameChar(c: char) {
    ('a' <= c <= 'z') || ('A' <= c <= 'Z') || ('0' <= c <= '9') || c == '_' || c == '.' || c == '-'
  }

  /** The class `[a-zA-Z0-9_.\-/]` of the path group. */
  predicate IsPathChar(c: char) {
    IsNameChar(c) || c == '/'
  }

  /** End of the longest run of name characters starting at i. */
  function NameRunEnd(s: string, i: nat): (j: nat)
    requires i <= |s|
    ensures i <= j <= |s|
    ensures forall k :: i <= k < j ==> IsNameChar(s[k])
    ensures forall k :: 0 <= k < |s[i..j]| ==> IsNameChar(s[i..j][k])
    ensures j < |s| ==> !IsNameChar(s[j])
    decreases |s| - i
  {
    if i < |s| && IsNameChar(s[i]) then NameRunEnd(s, i + 1) else i
  }

  /** End of the longest run of path characters starting at i. */
  function PathRunEnd(s: string, i: nat): (j: nat)
    requires i <= |s|
    ensures i <= j <= |s|
    ensures forall k :: i <= k < j ==> IsPathChar(s[k])
    ensures forall k :: 0 <= k < |s[i..j]| ==> IsPathChar(s[i..j][k])
    ensures j < |s| ==> !IsPathChar(s[j])
    decreases |s| - i
  {
    if i < |s| && IsPathChar(s[i]) then PathRunEnd(s, i + 1) else i
  }

  /** The two groups of one match. */
  datatype Remap = Remap(name: string, path: string)

  predicate WellFormed(r: Remap) {
    && r.name != [] && (forall k :: 0 <= k < |r.name| ==> IsNameChar(r.name[k]))
    && r.path != [] && (forall k :: 0 <= k < |r.path| ==> IsPathChar(r.path[k]))
  }

  /**
   * The match of `([a-zA-Z0-9_.\-]+)=([a-zA-Z0-9_.\-/]+)` starting at i, if
   * any. Both groups are greedy; '=' is not a name character, so the name
   * group can only end where its run ends.
   */
  function MatchAt(s: string, i: nat): (m: Option<Remap>)
    requires i <= |s|
    ensures m.Some? ==> WellFormed(m.value)
    ensures m.Some? ==> i + |m.value.name| + 1 + |m.value.path| <= |s|
  {
    var j := NameRunEnd(s, i);
    if i < j < |s| - 1 && s[j] == '=' && IsPathChar(s[j + 1]) then
      var e := PathRunEnd(s, j + 1);
      Some(Remap(s[i..j], s[j + 1..e]))
    else None
  }

  /** re.search: the match at the leftmost position from i on where one starts. */
  function SearchFrom(s: string, i: nat): (m: Option<Remap>)
    requires i <= |s|
    ensures m.Some? ==> WellFormed(m.value)
    decreases |s| - i
  {
    if MatchAt(s, i).Some? then MatchAt(s, i)
    else if i == |s| then None
    else SearchFrom(s, i + 1)
  }

  function SearchRemap(entry: string): (m: Option<Remap>)
    ensures m.Some? ==> WellFormed(m.value)
  {
    SearchFrom(entry, 0)
  }

  /**
   * The pattern read as a reference: n name characters from i, then '=',
   * then p path characters, both runs non-empty.
   */
  predicate PatternAt(s: string, i: nat, n: nat, p: nat) {
    && 1 <= n && 1 <= p && i + n + 1 + p <= |s|
    && (forall k :: i <= k < i + n ==> IsNameChar(s[k]))
    && s[i + n] == '='
    && (forall k :: i + n + 1 <= k < i + n + 1 + p ==> IsPathChar(s[k]))
  }

  /** The end of a name run is the first position from i on that holds no name character. */
  lemma NameRunEndIsFirstStop(s: string, i: nat, e: nat)
    requires i <= e < |s| && !IsNameChar(s[e])
    requires forall k :: i <= k < e ==> IsNameChar(s[k])
    ensures NameRunEnd(s, i) == e
  {
  }

  /** A path run reaches past every stretch of path characters it starts. */
  lemma PathRunEndCovers(s: string, i: nat, e: nat)
    requires i <= e <= |s|
    requires forall k :: i <= k < e ==> IsPathChar(s[k])
    ensures e <= PathRunEnd(s, i)
  {
  }

  /** A match found at i is an occurrence of the pattern there, ending where the path run ends. */
  lemma MatchAtSpellsPattern(s: string, i: nat)
    requires i <= |s| && MatchAt(s, i).Some?
    ensures PatternAt(s, i, |MatchAt(s, i).value.name|, |MatchAt(s, i).value.path|)
    ensures i + |MatchAt(s, i).value.name| + 1 + |MatchAt(s, i).value.path| == PathRunEnd(s, NameRunEnd(s, i) + 1)
  {
    var j := NameRunEnd(s, i);
    var e := PathRunEnd(s, j + 1);
    assert MatchAt(s, i) == Some(Remap(s[i..j], s[j + 1..e]));
  }

  /**
   * Wherever the pattern occurs at i, MatchAt finds a match there: its name
   * group is exactly the occurrence's name, and its path group, being
   * greedy, is at least as long.
   */
  lemma MatchAtGreedy(s: string, i: nat, n: nat, p: nat)
    requires i <= |s| && PatternAt(s, i, n, p)
    ensures MatchAt(s, i).Some? && n == |MatchAt(s, i).value.name| && p <= |MatchAt(s, i).value.path|
  {
    NameRunEndIsFirstStop(s, i, i + n);
    PathRunEndCovers(s, i + n + 1, i + n + 1 + p);
  }

  /** A match is found at i exactly when the pattern occurs at i. */
  lemma MatchAtPattern(s: string, i: nat)
    requires i <= |s|
    ensures MatchAt(s, i).Some? <==> exists n: nat, p: nat :: PatternAt(s, i, n, p)
  {
    if MatchAt(s, i).Some? {
      MatchAtSpellsPattern(s, i);
    } else {
      forall n: nat, p: nat | PatternAt(s, i, n, p) ensures false {
        MatchAtGreedy(s, i, n, p);
      }
    }
  }

  /** re.search from i finds nothing exactly when no position from i on starts a match. */
  lemma {:induction false} SearchFromNone(s: string, i: nat)
    requires i <= |s|
    ensures SearchFrom(s, i).None? <==> forall k: nat :: i <= k <= |s| ==> MatchAt(s, k).None?
    decreases |s| - i
  {
    if MatchAt(s, i).None? && i < |s| {
      SearchFromNone(s, i + 1);
      assert SearchFrom(s, i) == SearchFrom(s, i + 1);
    }
  }

  /** What re.search from i finds is the match at the leftmost position from i on that starts one. */
  lemma {:induction false} SearchFromLeftmost(s: string, i: nat)
    requires i <= |s| && SearchFrom(s, i).Some?
    ensures exists k: nat :: i <= k <= |s| && MatchAt(s, k) == SearchFrom(s, i) && forall l: nat :: i <= l < k ==> MatchAt(s, l).None?
    decreases |s| - i
  {
    if MatchAt(s, i).None? {
      SearchFromLeftmost(s, i + 1);
      var k: nat :| i + 1 <= k <= |s| && MatchAt(s, k) == SearchFrom(s, i + 1) && forall l: nat :: i + 1 <= l < k ==> MatchAt(s, l).None?;
      assert MatchAt(s, k) == SearchFrom(s, i);
    }
  }

  /** An entry yields no remap exactly when the pattern occurs nowhere in it. */
  lemma SearchRemapFindsPattern(entry: string)
    ensures SearchRemap(entry).None? <==> forall k: nat, n: nat, p: nat :: k <= |entry| ==> !PatternAt(entry, k, n, p)
  {
    SearchFromNone(entry, 0);
    if SearchRemap(entry).None? {
      forall k: nat, n: nat, p: nat | k <= |entry| && PatternAt(entry, k, n, p) ensures false {
        MatchAtGreedy(entry, k, n, p);
      }
    } else {
      var k: nat :| k <= |entry| && MatchAt(entry, k).Some?;
      MatchAtSpellsPattern(entry, k);
    }
  }

  /** A match always holds '=', so an entry without one is ignored. */
  lemma {:induction false} NoEqualsNoRemap(entry: string, i: nat)
    requires i <= |entry|
    requires '=' !in entry
    ensures SearchFrom(entry, i) == None
    decreases |entry| - i
  {
    if i < |entry| {
      NoEqualsNoRemap(entry, i + 1);
    }
  }

  /** A bare `name=path` entry is read back as exactly that name and path. */
  lemma RemapEntryRoundTrip(name: string, path: string)
    requires WellFormed(Remap(name, path))
    ensures SearchRemap(name + "=" + path) == Some(Remap(name, path))
  {
    var s := name + "=" + path;
    assert forall k :: 0 <= k < |name| ==> s[k] == name[k];
    assert s[|name|] == '=';
    assert forall k :: |name| < k < |s| ==> s[k] == path[k - |name| - 1];
    assert NameRunEnd(s, 0) == |name|;
    assert IsPathChar(s[|name| + 1]);
    assert PathRunEnd(s, |name| + 1) == |s|;
    assert s[0..|name|] == name;
    assert s[|name| + 1..|s|] == path;
  }

  /** Python's `str()` of the attribute: the text "None" when the job has no remaps. */
  function RemapText(job: Job): string {
    if job.outputRemaps.None? then "None" else job.outputRemaps.value
  }

  /** The three destinations of via_system, in the order err, out, log. */
  datatype Destinations = Destinations(err: Option<Path>, out: Option<Path>, log: Option<Path>)

  datatype Slot = ErrSlot | OutSlot | LogSlot

  function Get(d: Destinations, slot: Slot): Option<Path> {
    match slot
    case ErrSlot => d.err
    case OutSlot => d.out
    case LogSlot => d.log
  }

  /** The source names of a job: Err, Out and UserLog, as given (not joined with Iwd). */
  datatype SourceNames = SourceNames(err: string, out: string, log: string)

  /** The slot an entry overrides: the user log is compared first, then stdout, then stderr. */
  function Target(entry: string, names: SourceNames): (t: Option<Slot>)
    ensures t == Some(LogSlot) <==> SearchRemap(entry).Some? && SearchRemap(entry).value.name == names.log
    ensures t == Some(OutSlot) <==> SearchRemap(entry).Some? && SearchRemap(entry).value.name == names.out && names.out != names.log
    ensures t == Some(ErrSlot) <==> SearchRemap(entry).Some? && SearchRemap(entry).value.name == names.err && names.err != names.log && names.err != names.out
  {
    match SearchRemap(entry)
    case None => None
    case Some(r) =>
      if r.name == names.log then Some(LogSlot)
      else if r.name == names.out then Some(OutSlot)
      else if r.name == names.err then Some(ErrSlot)
      else None
  }

  /** One pass of the `for _m in transfer_remap_list` loop. */
  function ApplyRemap(d: Destinations, names: SourceNames, entry: string): (r: Destinations)
    ensures Target(entry, names).None? ==> r == d
  {
    match Target(entry, names)
    case None => d
    case Some(slot) =>
      var p := Some(NormPath(SearchRemap(entry).value.path));
      match slot
      case LogSlot => d.(log := p)
      case OutSlot => d.(out := p)
      case ErrSlot => d.(err := p)
  }

  /** The destinations after every entry has been applied in order. */
  function Resolve(entries: seq<string>, init: Destinations, names: SourceNames): Destinations
    decreases |entries|
  {
    if entries == [] then init
    else ApplyRemap(Resolve(entries[..|entries| - 1], init, names), names, entries[|entries| - 1])
  }

  /** The destination an entry gives to the slot it targets. */
  function RemapDestination(entry: string): Path
    requires SearchRemap(entry).Some?
  {
    NormPath(SearchRemap(entry).value.path)
  }

  /** A slot no entry targets keeps its initial value. */
  lemma {:induction false} ResolveUntargeted(entries: seq<string>, init: Destinations, names: SourceNames, slot: Slot)
    requires forall k :: 0 <= k < |entries| ==> Target(entries[k], names) != Some(slot)
    ensures Get(Resolve(entries, init, names), slot) == Get(init, slot)
    decreases |entries|
  {
    if entries != [] {
      var prefix := entries[..|entries| - 1];
      assert forall k :: 0 <= k < |prefix| ==> prefix[k] == entries[k];
      ResolveUntargeted(prefix, init, names, slot);
    }
  }

  /** Applying an entry that targets another slot leaves this one alone. */
  lemma ApplyRemapOtherSlot(d: Destinations, names: SourceNames, entry: string, slot: Slot)
    requires Target(entry, names) != Some(slot)
    ensures Get(ApplyRemap(d, names, entry), slot) == Get(d, slot)
  {
  }

  /** A slot ends with the normalised path of the last entry that targets it. */
  lemma {:induction false} ResolveIsLastTarget(entries: seq<string>, init: Destinations, names: SourceNames, slot: Slot, k: nat)
    requires k < |entries| && Target(entries[k], names) == Some(slot)
    requires forall l :: k < l < |entries| ==> Target(entries[l], names) != Some(slot)
    ensures Get(Resolve(entries, init, names), slot) == Some(RemapDestination(entries[k]))
    decreases |entries|
  {
    var prefix := entries[..|entries| - 1];
    var last := entries[|entries| - 1];
    if k < |entries| - 1 {
      assert forall l :: 0 <= l < |prefix| ==> prefix[l] == entries[l];
      ResolveIsLastTarget(prefix, init, names, slot, k);
      ApplyRemapOtherSlot(Resolve(prefix, init, names), names, last, slot);
    }
  }

  /** Where the destinations start: no stderr or stdout destination, the user log to SUBMIT_UserLog. */
  function InitialDestinations(job: Job): Destinations {
    Destinations(None, None, job.submitUserLog)
  }

  function Names(job: Job): SourceNames
    requires job.userLog.Some?
  {
    SourceNames(job.err, job.out, job.userLog.value)
  }

  /** The resolved destinations of a job's three files. */
  function JobDestinations(job: Job): Destinations
    requires job.userLog.Some?
  {
    Resolve(Split(RemapText(job), ';'), InitialDestinations(job), Names(job))
  }

  /** Without an entry naming one of the job's files, stderr and stdout have no destination and the log goes to SUBMIT_UserLog. */
  lemma ResolveWithoutMatchingRemap(job: Job)
    requires job.userLog.Some?
    requires forall e :: e in Split(RemapText(job), ';') ==> Target(e, Names(job)).None?
    ensures JobDestinations(job) == Destinations(None, None, job.submitUserLog)
  {
    var entries := Split(RemapText(job), ';');
    ResolveUntargeted(entries, InitialDestinations(job), Names(job), ErrSlot);
    ResolveUntargeted(entries, InitialDestinations(job), Names(job), OutSlot);
    ResolveUntargeted(entries, InitialDestinations(job), Names(job), LogSlot);
  }

  /** A job without the remaps attribute keeps its initial destinations: "None" names nothing. */
  lemma NoRemapAttribute(job: Job)
    requires job.userLog.Some? && job.outputRemaps.None?
    ensures JobDestinations(job) == Destinations(None, None, job.submitUserLog)
  {
    SplitWithoutSeparator("None", ';');
    NoEqualsNoRemap("None", 0);
    ResolveWithoutMatchingRemap(job);
  }
}
