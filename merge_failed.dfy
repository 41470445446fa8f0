/**
 * The per-record loop of merge_failed.py `main`: for every record of the
 * failures file, change into its `repository_dir` and run `git mergetool`;
 * a raised `GitException` becomes a conflicts record, a returned status a
 * merged record. `os_cd`'s `TypeError` and the `KeyError` of a record
 * without `source` are not caught and end the pass, losing both lists.
 * Reading the failures file and writing the two lists out are not part of
 * this model.
 */
module MergeFailed {
  import opened Wrappers
  import opened Git
  import opened Records

  /** The keys of one failures-file record the loop reads; `source` may be missing. */
  datatype FailedEntry = FailedEntry(repositoryDir: string, source: Option<string>)

  /** The exceptions the loop does not catch. */
  datatype Crash = TypeError(message: string) | KeyError(key: string)

  /** The `error_message` of the `mergetool` call. */
  const ResolveMessage: string := "cannot resolve conflicts"

  /** The full argument vector of the `mergetool` call. */
  const MergeToolArgv: seq<string> := ["git", "mergetool"]

  /** The records appended so far, the crash if one ended the pass, and the process state. */
  datatype Pass = Pass(outcomes: seq<Outcome>, crash: Option<Crash>, cwd: string, log: seq<Invocation>)

  /** One iteration of the loop, on a pass that has not crashed. */
  function Visit(env: Env, prev: Pass, entry: FailedEntry): Pass {
    if !env.isDir(prev.cwd, entry.repositoryDir) then
      prev.(crash := Some(TypeError("No directory at " + entry.repositoryDir)))
    else
      var cwd := env.absPath(prev.cwd, entry.repositoryDir);
      var inv := Invocation(cwd, MergeToolArgv);
      var s := env.run(prev.log, inv);
      var log := prev.log + [inv];
      if Faults(s) then
        Pass(prev.outcomes + [Faulted(FaultRecord(entry.repositoryDir, ResolveMessage, s))], None, cwd, log)
      else if entry.source.None? then
        Pass(prev.outcomes, Some(KeyError("source")), cwd, log)
      else
        Pass(prev.outcomes + [Done(DoneRecord(s, entry.repositoryDir, entry.source.value))], None, cwd, log)
  }

  /** The loop over the records, stopping at the first uncaught exception. */
  function PassSpec(env: Env, cwd0: string, log0: seq<Invocation>, entries: seq<FailedEntry>): Pass
    decreases |entries|
  {
    if entries == [] then Pass([], None, cwd0, log0)
    else
      var prev := PassSpec(env, cwd0, log0, entries[..|entries| - 1]);
      if prev.crash.Some? then prev else Visit(env, prev, entries[|entries| - 1])
  }

  /** What `main` ends with: the two lists, or the exception that escaped it. */
  datatype PassResult = Finished(conflicts: seq<FaultRecord>, merged: seq<DoneRecord>) | Aborted(crash: Crash)

  /** The loop of merge_failed.py `main` over the records of the failures file. */
  method ResolveConflicts(p: Process, entries: seq<FailedEntry>) returns (r: PassResult)
    modifies p
    ensures var q := PassSpec(p.env, old(p.cwd), old(p.log), entries);
      p.cwd == q.cwd && p.log == q.log &&
      r == if q.crash.Some? then Aborted(q.crash.value)
           else Finished(FaultedOnes(q.outcomes), DoneOnes(q.outcomes))
  {
    ghost var cwd0, log0 := p.cwd, p.log;
    var conflictsList: seq<FaultRecord> := [];
    var mergedList: seq<DoneRecord> := [];
    for i := 0 to |entries|
      invariant var q := PassSpec(p.env, cwd0, log0, entries[..i]);
        q.crash.None? && p.cwd == q.cwd && p.log == q.log &&
        conflictsList == FaultedOnes(q.outcomes) && mergedList == DoneOnes(q.outcomes)
    {
      PassStep(p.env, cwd0, log0, entries, i);
      assert ["git"] + ["mergetool"] == MergeToolArgv;
      var entry := entries[i];
      var cd := p.OsCd(entry.repositoryDir);
      if cd.Failure? {
        CrashPersists(p.env, cwd0, log0, entries, i + 1);
        return Aborted(TypeError(cd.error));
      }
      var status := p.Git(["mergetool"], ResolveMessage, true);
      match status
      case Failure(e) =>
        conflictsList := conflictsList + [FaultOf(entry.repositoryDir, e)];
      case Success(s) =>
        if entry.source.None? {
          CrashPersists(p.env, cwd0, log0, entries, i + 1);
          return Aborted(KeyError("source"));
        }
        mergedList := mergedList + [DoneRecord(s, entry.repositoryDir, entry.source.value)];
    }
    assert entries[..|entries|] == entries;
    r := Finished(conflictsList, mergedList);
  }

  /** One more record: nothing if the pass has crashed, otherwise one visit. */
  lemma PassStep(env: Env, cwd0: string, log0: seq<Invocation>, entries: seq<FailedEntry>, i: nat)
    requires i < |entries|
    ensures var a := PassSpec(env, cwd0, log0, entries[..i]);
      PassSpec(env, cwd0, log0, entries[..i + 1]) == if a.crash.Some? then a else Visit(env, a, entries[i])
  {
    var front := entries[..i + 1];
    assert front[..|front| - 1] == entries[..i] && front[|front| - 1] == entries[i];
  }

  /** Once the pass has crashed, later records change nothing: no command, no record, no `cd`. */
  lemma {:induction false} CrashPersists(env: Env, cwd0: string, log0: seq<Invocation>, entries: seq<FailedEntry>, i: nat)
    requires i <= |entries|
    requires PassSpec(env, cwd0, log0, entries[..i]).crash.Some?
    ensures PassSpec(env, cwd0, log0, entries) == PassSpec(env, cwd0, log0, entries[..i])
    decreases |entries| - i
  {
    if i == |entries| {
      assert entries[..i] == entries;
    } else {
      assert entries[..i + 1][..i] == entries[..i];
      CrashPersists(env, cwd0, log0, entries, i + 1);
    }
  }

  /**
   * A pass that did not crash: before every record the earlier ones left no
   * crash, and their records and commands are the first ones of the pass.
   */
  lemma {:induction false} PassPrefix(env: Env, cwd0: string, log0: seq<Invocation>, entries: seq<FailedEntry>, i: nat)
    requires i <= |entries|
    requires PassSpec(env, cwd0, log0, entries).crash.None?
    ensures var a := PassSpec(env, cwd0, log0, entries[..i]);
      var b := PassSpec(env, cwd0, log0, entries);
      a.crash.None? && a.outcomes <= b.outcomes && a.log <= b.log &&
      |a.outcomes| == i && |a.log| == |log0| + i
    decreases |entries| - i
  {
    if i == |entries| {
      assert entries[..i] == entries;
      PassCounts(env, cwd0, log0, entries);
    } else {
      PassPrefix(env, cwd0, log0, entries, i + 1);
      assert entries[..i + 1][..i] == entries[..i];
    }
  }

  /** Without a crash every record gets one outcome and one `mergetool` command. */
  lemma {:induction false} PassCounts(env: Env, cwd0: string, log0: seq<Invocation>, entries: seq<FailedEntry>)
    requires PassSpec(env, cwd0, log0, entries).crash.None?
    ensures var b := PassSpec(env, cwd0, log0, entries);
      |b.outcomes| == |entries| && |b.log| == |log0| + |entries|
    decreases |entries|
  {
    if entries != [] {
      PassCounts(env, cwd0, log0, entries[..|entries| - 1]);
    }
  }

  /**
   * Record `i` of a pass that did not crash: its directory existed, the
   * process changed into it before its one `git mergetool`, and its outcome
   * is a conflicts record with that command's status exactly when the
   * command faulted, otherwise a merged record with the status and the
   * record's `source`.
   */
  lemma PassRecord(env: Env, cwd0: string, log0: seq<Invocation>, entries: seq<FailedEntry>, i: nat)
    requires i < |entries|
    requires PassSpec(env, cwd0, log0, entries).crash.None?
    ensures var a := PassSpec(env, cwd0, log0, entries[..i]);
      var b := PassSpec(env, cwd0, log0, entries);
      var dir := entries[i].repositoryDir;
      env.isDir(a.cwd, dir) &&
      |log0| + i < |b.log| && i < |b.outcomes| &&
      b.log[|log0| + i] == Invocation(env.absPath(a.cwd, dir), MergeToolArgv) &&
      var s := StatusAt(env.run, b.log, |log0| + i);
      (Faults(s) ==> b.outcomes[i] == Faulted(FaultRecord(dir, ResolveMessage, s))) &&
      (!Faults(s) ==> entries[i].source.Some? && b.outcomes[i] == Done(DoneRecord(s, dir, entries[i].source.value)))
  {
    var a := PassSpec(env, cwd0, log0, entries[..i]);
    var a1 := PassSpec(env, cwd0, log0, entries[..i + 1]);
    var b := PassSpec(env, cwd0, log0, entries);
    PassPrefix(env, cwd0, log0, entries, i);
    PassPrefix(env, cwd0, log0, entries, i + 1);
    PassStep(env, cwd0, log0, entries, i);
    assert b.log[..|log0| + i + 1] == a1.log;
    assert b.log[..|log0| + i] == a.log;
  }

  /**
   * A pass that crashed did so on one record, after the records before it
   * went through, and nothing happened after it.
   */
  lemma {:induction false} PassCrash(env: Env, cwd0: string, log0: seq<Invocation>, entries: seq<FailedEntry>)
    requires PassSpec(env, cwd0, log0, entries).crash.Some?
    ensures exists i :: 0 <= i < |entries| && CrashedAt(env, cwd0, log0, entries, i)
    decreases |entries|
  {
    var n := |entries| - 1;
    var init := entries[..n];
    PassStep(env, cwd0, log0, entries, n);
    assert entries[..n + 1] == entries;
    if PassSpec(env, cwd0, log0, init).crash.Some? {
      PassCrash(env, cwd0, log0, init);
      var i :| 0 <= i < |init| && CrashedAt(env, cwd0, log0, init, i);
      assert init[..i] == entries[..i] && init[..i + 1] == entries[..i + 1];
      assert PassSpec(env, cwd0, log0, entries) == PassSpec(env, cwd0, log0, init);
      assert CrashedAt(env, cwd0, log0, entries, i);
    } else {
      assert CrashedAt(env, cwd0, log0, entries, n);
    }
  }

  /**
   * The pass crashed on record `i`, after the records before it went through,
   * and ended there: a `TypeError` exactly when the record's directory was
   * missing, and then no `mergetool` ran for it; otherwise its `mergetool`
   * passed and the record had no `source`. No record was appended for it.
   */
  ghost predicate CrashedAt(env: Env, cwd0: string, log0: seq<Invocation>, entries: seq<FailedEntry>, i: nat)
    requires i < |entries|
  {
    var a := PassSpec(env, cwd0, log0, entries[..i]);
    var b := PassSpec(env, cwd0, log0, entries);
    var dir := entries[i].repositoryDir;
    a.crash.None? &&
    b == PassSpec(env, cwd0, log0, entries[..i + 1]) &&
    b.outcomes == a.outcomes &&
    if !env.isDir(a.cwd, dir) then
      b.crash == Some(TypeError("No directory at " + dir)) && b.log == a.log && b.cwd == a.cwd
    else
      var inv := Invocation(env.absPath(a.cwd, dir), MergeToolArgv);
      b.crash == Some(KeyError("source")) && entries[i].source.None? &&
      !Faults(env.run(a.log, inv)) && b.log == a.log + [inv]
  }
}
