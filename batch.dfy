/**
 * The per-repository loop of `main` (lib/__init__.py): every entry of
 * `repos` is consolidated over the defaults and fixed; a raised
 * `GitException` becomes a failure record, a returned status a success
 * record, and the loop goes on with the next entry. Reading the
 * configuration and writing the two lists out are not part of this model.
 */
module Batch {
  import opened Wrappers
  import opened Paths
  import opened Config
  import opened Git
  import opened FixRepo
  import opened FixLaws
  import opened Records

  /** `consolidate_repo_configs(defaults, repo)`, with `dir` made absolute against the working directory. */
  function ConfigOf(env: Env, cwd: string, defaults: Defaults, repo: RepoEntry): RepoConfig {
    var absDir := env.absPath(cwd, repo.dir);
    assert IsAbsolute(absDir) && absDir[0] in absDir;
    Consolidate(defaults, repo, absDir)
  }

  /** The record the loop appends for one `fix` call on `repo`. */
  function OutcomeOf(repo: RepoEntry, r: Result<Status, GitException>): Outcome {
    match r
    case Success(status) => Done(DoneRecord(status, repo.dir, repo.source))
    case Failure(e) => Faulted(FaultOf(repo.dir, e))
  }

  /** One `fix` call on an entry, given the log so far. */
  type Fixer = (seq<Invocation>, RepoEntry) -> FixRun

  /** The `fix` of lib/__init__.py on an entry of `repos`, consolidated over `defaults`. */
  function FixEntry(env: Env, cwd: string, defaults: Defaults): Fixer {
    (log: seq<Invocation>, repo: RepoEntry) => FixSpec(env.run, cwd, log, ConfigOf(env, cwd, defaults, repo))
  }

  /** The outcomes of a batch, one per entry, and the commands it issued. */
  datatype BatchRun = BatchRun(outcomes: seq<Outcome>, log: seq<Invocation>)

  /** What the loop does to `repos`: each `fix` call starts where the previous one left the log. */
  function Sweep(fix: Fixer, log0: seq<Invocation>, repos: seq<RepoEntry>): BatchRun
    decreases |repos|
  {
    if repos == [] then BatchRun([], log0)
    else
      var prev := Sweep(fix, log0, repos[..|repos| - 1]);
      var f := fix(prev.log, repos[|repos| - 1]);
      BatchRun(prev.outcomes + [OutcomeOf(repos[|repos| - 1], f.result)], f.log)
  }

  /** The loop of `main` over `defaults['repos']`, returning `fixed_list` and `failed_list`. */
  method RunBatch(p: Process, defaults: Defaults, repos: seq<RepoEntry>)
    returns (fixedList: seq<DoneRecord>, failedList: seq<FaultRecord>)
    modifies p
    ensures p.cwd == old(p.cwd)
    ensures var b := Sweep(FixEntry(p.env, p.cwd, defaults), old(p.log), repos);
      p.log == b.log && fixedList == DoneOnes(b.outcomes) && failedList == FaultedOnes(b.outcomes)
  {
    ghost var log0 := p.log;
    ghost var fix := FixEntry(p.env, p.cwd, defaults);
    failedList := [];
    fixedList := [];
    for i := 0 to |repos|
      invariant p.cwd == old(p.cwd)
      invariant var b := Sweep(fix, log0, repos[..i]);
        p.log == b.log && fixedList == DoneOnes(b.outcomes) && failedList == FaultedOnes(b.outcomes)
    {
      assert repos[..i + 1][..i] == repos[..i];
      var repoConfigs := ConfigOf(p.env, p.cwd, defaults, repos[i]);
      var status := Fix(p, repoConfigs);
      match status
      case Failure(e) =>
        failedList := failedList + [FaultOf(repoConfigs.dir, e)];
      case Success(s) =>
        fixedList := fixedList + [DoneRecord(s, repoConfigs.dir, repoConfigs.source)];
    }
    assert repos[..|repos|] == repos;
  }

  /** `after` extends `before` with commands that all run in `cwd`. */
  predicate ExtendsIn(before: seq<Invocation>, after: seq<Invocation>, cwd: string) {
    before <= after && forall k :: |before| <= k < |after| ==> after[k].cwd == cwd
  }

  /** Every command one `fix` call issues runs in the directory it started in. */
  lemma FixStaysPut(run: Runner, cwd: string, log0: seq<Invocation>, cfg: RepoConfig)
    ensures var f := FixSpec(run, cwd, log0, cfg);
      |log0| < |f.log| && ExtendsIn(log0, f.log, cwd)
  {
    var f := FixSpec(run, cwd, log0, cfg);
    FixLog(run, cwd, log0, cfg);
    assert f.log[..|log0|] == log0;
    forall k | |log0| <= k < |f.log|
      ensures f.log[k].cwd == cwd
    {
      assert f.log[k] == f.log[|log0|..][k - |log0|];
    }
  }

  /** `fix` never changes directory, whatever entry and log it starts from. */
  lemma FixEntryStaysPut(env: Env, cwd: string, defaults: Defaults)
    ensures forall log, repo :: ExtendsIn(log, FixEntry(env, cwd, defaults)(log, repo).log, cwd)
  {
    forall log, repo
      ensures ExtendsIn(log, FixEntry(env, cwd, defaults)(log, repo).log, cwd)
    {
      FixStaysPut(env.run, cwd, log, ConfigOf(env, cwd, defaults, repo));
    }
  }

  /** One outcome per entry, in order, each about that entry's directory. */
  lemma {:induction false} SweepOutcomes(fix: Fixer, log0: seq<Invocation>, repos: seq<RepoEntry>)
    ensures var b := Sweep(fix, log0, repos);
      |b.outcomes| == |repos| && forall i :: 0 <= i < |repos| ==> DirOf(b.outcomes[i]) == repos[i].dir
    decreases |repos|
  {
    if repos != [] {
      var init := repos[..|repos| - 1];
      SweepOutcomes(fix, log0, init);
      var b := Sweep(fix, log0, repos);
      forall i | 0 <= i < |repos| - 1
        ensures DirOf(b.outcomes[i]) == repos[i].dir
      {
        assert repos[i] == init[i];
      }
    }
  }

  /** When every `fix` call keeps to `cwd`, so does the whole batch. */
  lemma {:induction false} SweepStaysPut(fix: Fixer, cwd: string, log0: seq<Invocation>, repos: seq<RepoEntry>)
    requires forall log, repo :: ExtendsIn(log, fix(log, repo).log, cwd)
    ensures ExtendsIn(log0, Sweep(fix, log0, repos).log, cwd)
    decreases |repos|
  {
    if repos != [] {
      var prev := Sweep(fix, log0, repos[..|repos| - 1]);
      SweepStaysPut(fix, cwd, log0, repos[..|repos| - 1]);
      var b := Sweep(fix, log0, repos);
      assert ExtendsIn(prev.log, b.log, cwd);
      forall k | |log0| <= k < |b.log|
        ensures b.log[k].cwd == cwd
      {
        if k < |prev.log| {
          assert b.log[k] == prev.log[k];
        }
      }
    }
  }

  /** The outcomes of a sweep over a prefix of `repos` are the first outcomes of the whole sweep. */
  lemma {:induction false} SweepPrefix(fix: Fixer, log0: seq<Invocation>, repos: seq<RepoEntry>, i: nat)
    requires i <= |repos|
    ensures Sweep(fix, log0, repos[..i]).outcomes <= Sweep(fix, log0, repos).outcomes
    decreases |repos| - i
  {
    if i < |repos| {
      SweepPrefix(fix, log0, repos, i + 1);
      assert repos[..i + 1][..i] == repos[..i];
    } else {
      assert repos[..i] == repos;
    }
  }

  /** The i-th outcome is the record of the i-th `fix` call, made on the log the entries before it left. */
  lemma SweepRecord(fix: Fixer, log0: seq<Invocation>, repos: seq<RepoEntry>, i: nat)
    requires i < |repos|
    ensures var b := Sweep(fix, log0, repos);
      i < |b.outcomes| &&
      b.outcomes[i] == OutcomeOf(repos[i], fix(Sweep(fix, log0, repos[..i]).log, repos[i]).result)
  {
    SweepPrefix(fix, log0, repos, i + 1);
    SweepOutcomes(fix, log0, repos[..i]);
    var front := repos[..i + 1];
    assert front[..|front| - 1] == repos[..i] && front[|front| - 1] == repos[i];
  }

  /**
   * The batch of `main`: one outcome per entry, about that entry's
   * directory; the log only grows, and every command runs in the starting
   * directory, since `fix` never changes directory.
   */
  lemma BatchShape(env: Env, cwd: string, log0: seq<Invocation>, defaults: Defaults, repos: seq<RepoEntry>)
    ensures var b := Sweep(FixEntry(env, cwd, defaults), log0, repos);
      |b.outcomes| == |repos| &&
      (forall i :: 0 <= i < |repos| ==> DirOf(b.outcomes[i]) == repos[i].dir) &&
      log0 <= b.log &&
      (forall k :: |log0| <= k < |b.log| ==> b.log[k].cwd == cwd)
  {
    FixEntryStaysPut(env, cwd, defaults);
    SweepOutcomes(FixEntry(env, cwd, defaults), log0, repos);
    SweepStaysPut(FixEntry(env, cwd, defaults), cwd, log0, repos);
  }

  /**
   * The i-th outcome of `main`'s batch: a success record (the status, `dir`,
   * `source`) exactly when `fix` on the i-th entry returned, otherwise a
   * failure record with the fault's message and status.
   */
  lemma BatchRecord(env: Env, cwd: string, log0: seq<Invocation>, defaults: Defaults, repos: seq<RepoEntry>, i: nat)
    requires i < |repos|
    ensures var b := Sweep(FixEntry(env, cwd, defaults), log0, repos);
      var before := Sweep(FixEntry(env, cwd, defaults), log0, repos[..i]).log;
      var f := FixSpec(env.run, cwd, before, ConfigOf(env, cwd, defaults, repos[i]));
      i < |b.outcomes| &&
      (b.outcomes[i].Done? <==> f.result.Success?) &&
      (f.result.Success? ==> b.outcomes[i].done == DoneRecord(f.result.value, repos[i].dir, repos[i].source)) &&
      (f.result.Failure? ==>
        b.outcomes[i].fault == FaultRecord(repos[i].dir, f.result.error.message, f.result.error.status))
  {
    SweepRecord(FixEntry(env, cwd, defaults), log0, repos, i);
  }
}
