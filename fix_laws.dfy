/**
 * What one `fix(repo)` call does to the command log, read off `FixSpec`:
 * the order of the commands, the abort on the first fault, the two gates,
 * the hashes threaded from the `log` commands into `checkout` and `merge`,
 * and the success dictionary.
 */
module FixLaws {
  import opened Wrappers
  import opened Config
  import opened Git
  import opened FixRepo

  /**
   * `RunSteps` issues a prefix of its steps, in order; every issued command
   * but the last passed; it reports a fault exactly when the last one
   * faulted, with that step's message; without a fault it issued them all.
   */
  lemma RunStepsOutcome(run: Runner, cwd: string, log0: seq<Invocation>, steps: seq<Step>)
    ensures var t := RunSteps(run, cwd, log0, steps);
      var n := |t.log| - |log0|;
      0 <= n <= |steps| && (steps != [] ==> 1 <= n) &&
      t.log == log0 + Invs(cwd, steps[..n]) &&
      (forall k :: |log0| <= k < |t.log| - 1 ==> !Faults(StatusAt(run, t.log, k))) &&
      (t.fault.Some? <==> n >= 1 && Faults(StatusAt(run, t.log, |t.log| - 1))) &&
      (t.fault.Some? ==>
        t.fault.value == GitException(steps[n - 1].message, StatusAt(run, t.log, |t.log| - 1))) &&
      (t.fault.None? ==> n == |steps|)
  {
    var t := RunSteps(run, cwd, log0, steps);
    RunStepsLog(run, cwd, log0, steps);
    RunStepsResults(run, cwd, log0, steps);
    RunStepsFault(run, cwd, log0, steps);
    forall k | |log0| <= k < |t.log| - 1
      ensures !Faults(StatusAt(run, t.log, k))
    {
      assert !Faults(t.results[k - |log0|]);
    }
    if t.fault.None? && steps != [] {
      assert !Faults(t.results[|steps| - 1]);
    }
  }

  /** `fix` issues a non-empty prefix of its plan, in order. */
  lemma FixLog(run: Runner, cwd: string, log0: seq<Invocation>, cfg: RepoConfig)
    ensures var f := FixSpec(run, cwd, log0, cfg);
      var plan := FixPlan(run, cwd, log0, cfg);
      var n := |f.log| - |log0|;
      1 <= n <= |plan| &&
      f.log == log0 + Invs(cwd, plan[..n])
  {
    var plan := FixPlan(run, cwd, log0, cfg);
    assert |plan| >= 10;
    RunStepsOutcome(run, cwd, log0, plan);
  }

  /**
   * Every command `fix` issued but the last passed; it raises exactly when
   * the last one faulted, with that command's message and status; and when
   * it returns, it issued the whole plan and answers code 0, empty err and
   * the success message.
   */
  lemma FixOutcome(run: Runner, cwd: string, log0: seq<Invocation>, cfg: RepoConfig)
    ensures var f := FixSpec(run, cwd, log0, cfg);
      var plan := FixPlan(run, cwd, log0, cfg);
      var n := |f.log| - |log0|;
      1 <= n <= |plan| &&
      (forall k :: |log0| <= k < |f.log| - 1 ==> !Faults(StatusAt(run, f.log, k))) &&
      (f.result.Failure? <==> Faults(StatusAt(run, f.log, |f.log| - 1))) &&
      (f.result.Failure? ==>
        f.result.error == GitException(plan[n - 1].message, StatusAt(run, f.log, |f.log| - 1))) &&
      (f.result.Success? ==>
        n == |plan| && f.result.value == Status(0, SuccessMessage(cfg), ""))
  {
    var plan := FixPlan(run, cwd, log0, cfg);
    assert |plan| >= 10;
    RunStepsOutcome(run, cwd, log0, plan);
  }

  /** On success the log grows by exactly the plan: ten fixed commands, then the gated ones. */
  lemma FixSucceeds(run: Runner, cwd: string, log0: seq<Invocation>, cfg: RepoConfig)
    requires FixSpec(run, cwd, log0, cfg).result.Success?
    ensures var f := FixSpec(run, cwd, log0, cfg);
      var latest := LatestHash(run, cwd, log0, cfg);
      var source := SourceHash(run, cwd, log0, cfg);
      f.log == log0 + Invs(cwd, Core(cfg, latest, source)) + Invs(cwd, DeleteGate(cfg) + PushGate(cfg))
  {
    var latest, source := LatestHash(run, cwd, log0, cfg), SourceHash(run, cwd, log0, cfg);
    var plan := FixPlan(run, cwd, log0, cfg);
    FixLog(run, cwd, log0, cfg);
    FixOutcome(run, cwd, log0, cfg);
    assert plan[..|plan|] == plan;
    InvsAppend(cwd, Core(cfg, latest, source), DeleteGate(cfg) + PushGate(cfg));
    assert plan == Core(cfg, latest, source) + (DeleteGate(cfg) + PushGate(cfg));
  }

  /** In a log that extends `log0` by a run of steps, the k-th new entry is the k-th step. */
  lemma StepInLog(cwd: string, log0: seq<Invocation>, steps: seq<Step>, log: seq<Invocation>, k: nat)
    requires log == log0 + Invs(cwd, steps) && k < |steps|
    ensures |log0| + k < |log| && log[|log0| + k] == Invocation(cwd, Argv(steps[k]))
    ensures log[..|log0| + k] == log0 + Invs(cwd, steps[..k])
  {
    assert steps == steps[..k] + steps[k..];
    InvsAppend(cwd, steps[..k], steps[k..]);
  }

  /** The k-th command `fix` issued, counted from zero, is the k-th step of its plan. */
  lemma IssuedAt(run: Runner, cwd: string, log0: seq<Invocation>, cfg: RepoConfig, k: nat)
    requires |log0| + k < |FixSpec(run, cwd, log0, cfg).log|
    ensures k < |FixPlan(run, cwd, log0, cfg)|
    ensures FixSpec(run, cwd, log0, cfg).log[|log0| + k]
      == Invocation(cwd, Argv(FixPlan(run, cwd, log0, cfg)[k]))
    ensures FixSpec(run, cwd, log0, cfg).log[..|log0| + k]
      == log0 + Invs(cwd, FixPlan(run, cwd, log0, cfg)[..k])
  {
    var f := FixSpec(run, cwd, log0, cfg);
    var plan := FixPlan(run, cwd, log0, cfg);
    FixLog(run, cwd, log0, cfg);
    var n := |f.log| - |log0|;
    StepInLog(cwd, log0, plan[..n], f.log, k);
    assert plan[..n][..k] == plan[..k];
  }

  /**
   * The hashes are whatever the two `log` commands printed, unchecked: the
   * fifth command checks out the fourth command's `out`, and the seventh
   * merges the third command's `out`.
   */
  lemma FixUsesLoggedHashes(run: Runner, cwd: string, log0: seq<Invocation>, cfg: RepoConfig)
    ensures var f := FixSpec(run, cwd, log0, cfg);
      |f.log| > |log0| + 4 ==>
        f.log[|log0| + 4].argv == ["git", "checkout", StatusAt(run, f.log, |log0| + 3).out]
    ensures var f := FixSpec(run, cwd, log0, cfg);
      |f.log| > |log0| + 6 ==>
        f.log[|log0| + 6].argv == ["git", "merge", StatusAt(run, f.log, |log0| + 2).out]
  {
    var f := FixSpec(run, cwd, log0, cfg);
    var latest, source := LatestHash(run, cwd, log0, cfg), SourceHash(run, cwd, log0, cfg);
    var plan := FixPlan(run, cwd, log0, cfg);
    PlanAt(cfg, latest, source);
    if |f.log| > |log0| + 4 {
      IssuedAt(run, cwd, log0, cfg, 2);
      IssuedAt(run, cwd, log0, cfg, 3);
      IssuedAt(run, cwd, log0, cfg, 4);
      assert StatusAt(run, f.log, |log0| + 3).out == source;
      if |f.log| > |log0| + 6 {
        IssuedAt(run, cwd, log0, cfg, 6);
        assert StatusAt(run, f.log, |log0| + 2).out == latest;
      }
    }
  }

  /** Whether a log entry is `git branch --delete <fix_branch>`. */
  predicate IsDelete(cfg: RepoConfig, inv: Invocation) {
    inv.argv == ["git", "branch", "--delete", cfg.fixBranch]
  }

  /** Whether a log entry is a `git push`. */
  predicate IsPush(inv: Invocation) {
    |inv.argv| > 1 && inv.argv[1] == "push"
  }

  /** No step but the deletion is a deletion, and no step but the push is a push. */
  lemma StepKinds(cfg: RepoConfig, latest: string, source: string, cwd: string)
    ensures forall s :: s in Core(cfg, latest, source) ==>
      !IsDelete(cfg, Invocation(cwd, Argv(s))) && !IsPush(Invocation(cwd, Argv(s)))
    ensures IsDelete(cfg, Invocation(cwd, Argv(DeleteFixBranch(cfg))))
    ensures !IsPush(Invocation(cwd, Argv(DeleteFixBranch(cfg))))
    ensures IsPush(Invocation(cwd, Argv(Push(cfg))))
    ensures !IsDelete(cfg, Invocation(cwd, Argv(Push(cfg))))
  {
    forall s | s in Core(cfg, latest, source)
      ensures !IsDelete(cfg, Invocation(cwd, Argv(s))) && !IsPush(Invocation(cwd, Argv(s)))
    {
      assert Argv(s)[1] == s.args[0];
    }
  }

  /** On success, the log past the ten fixed commands holds exactly the gated ones. */
  lemma GatedTail(run: Runner, cwd: string, log0: seq<Invocation>, cfg: RepoConfig)
    requires FixSpec(run, cwd, log0, cfg).result.Success?
    ensures var f := FixSpec(run, cwd, log0, cfg);
      |f.log| >= |log0| + 10 &&
      (forall i :: |log0| <= i < |log0| + 10 ==> !IsDelete(cfg, f.log[i]) && !IsPush(f.log[i])) &&
      f.log[|log0| + 10..] == Invs(cwd, DeleteGate(cfg) + PushGate(cfg))
  {
    var f := FixSpec(run, cwd, log0, cfg);
    var latest, source := LatestHash(run, cwd, log0, cfg), SourceHash(run, cwd, log0, cfg);
    var core := Core(cfg, latest, source);
    FixSucceeds(run, cwd, log0, cfg);
    StepKinds(cfg, latest, source, cwd);
    forall i | |log0| <= i < |log0| + 10
      ensures !IsDelete(cfg, f.log[i]) && !IsPush(f.log[i])
    {
      assert f.log[i] == Invs(cwd, core)[i - |log0|];
      assert core[i - |log0|] in core;
    }
  }

  /** On success the branch is deleted exactly when `keep_fix_branch` is falsy. */
  lemma FixDeleteGate(run: Runner, cwd: string, log0: seq<Invocation>, cfg: RepoConfig)
    requires FixSpec(run, cwd, log0, cfg).result.Success?
    ensures var f := FixSpec(run, cwd, log0, cfg);
      (exists i :: |log0| <= i < |f.log| && IsDelete(cfg, f.log[i])) <==> !Truthy(cfg.keepFixBranch)
  {
    var f := FixSpec(run, cwd, log0, cfg);
    GatedTail(run, cwd, log0, cfg);
    StepKinds(cfg, "", "", cwd);
    var tail := f.log[|log0| + 10..];
    assert forall j :: 0 <= j < |tail| ==> tail[j] == f.log[|log0| + 10 + j];
    if !Truthy(cfg.keepFixBranch) {
      assert IsDelete(cfg, tail[0]);
    } else {
      assert forall j :: 0 <= j < |tail| ==> !IsDelete(cfg, tail[j]);
    }
  }

  /**
   * On success a push is issued exactly when `no_push` is falsy, and then it
   * is the last command.
   */
  lemma FixPushGate(run: Runner, cwd: string, log0: seq<Invocation>, cfg: RepoConfig)
    requires FixSpec(run, cwd, log0, cfg).result.Success?
    ensures var f := FixSpec(run, cwd, log0, cfg);
      (exists i :: |log0| <= i < |f.log| && IsPush(f.log[i])) <==> !Truthy(cfg.noPush)
    ensures var f := FixSpec(run, cwd, log0, cfg);
      !Truthy(cfg.noPush) ==> f.log[|f.log| - 1] == Invocation(cwd, Argv(Push(cfg)))
  {
    var f := FixSpec(run, cwd, log0, cfg);
    GatedTail(run, cwd, log0, cfg);
    StepKinds(cfg, "", "", cwd);
    var tail := f.log[|log0| + 10..];
    assert forall j :: 0 <= j < |tail| ==> tail[j] == f.log[|log0| + 10 + j];
    if !Truthy(cfg.noPush) {
      assert IsPush(tail[|tail| - 1]);
    } else {
      assert forall j :: 0 <= j < |tail| ==> !IsPush(tail[j]);
    }
  }

  /**
   * The success `out` follows the push gate with inverted wording: "skipped
   * pushing" exactly when a push was issued, "Finished fixing" when it was not.
   */
  lemma FixSuccessMessage(run: Runner, cwd: string, log0: seq<Invocation>, cfg: RepoConfig)
    requires FixSpec(run, cwd, log0, cfg).result.Success?
    ensures var f := FixSpec(run, cwd, log0, cfg);
      var pushed := exists i :: |log0| <= i < |f.log| && IsPush(f.log[i]);
      f.result.value.code == 0 && f.result.value.err == "" &&
      (pushed ==> f.result.value.out == Msg(cfg, SkippedPushing)) &&
      (!pushed ==> f.result.value.out == FinishedFixing + cfg.dir)
  {
    FixOutcome(run, cwd, log0, cfg);
    FixPushGate(run, cwd, log0, cfg);
  }

  /**
   * Nothing follows a fault: the faulting command is the last in the log and
   * the steps of the plan after it are never issued.
   */
  lemma FixAbort(run: Runner, cwd: string, log0: seq<Invocation>, cfg: RepoConfig, k: nat)
    requires |log0| + k < |FixSpec(run, cwd, log0, cfg).log|
    requires Faults(StatusAt(run, FixSpec(run, cwd, log0, cfg).log, |log0| + k))
    ensures var f := FixSpec(run, cwd, log0, cfg);
      |f.log| == |log0| + k + 1 && k < |FixPlan(run, cwd, log0, cfg)| &&
      f.result == Failure(GitException(FixPlan(run, cwd, log0, cfg)[k].message, StatusAt(run, f.log, |log0| + k)))
  {
    FixLog(run, cwd, log0, cfg);
    FixOutcome(run, cwd, log0, cfg);
  }
}
