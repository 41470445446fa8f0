/**
 * `fix(repo)` (lib/__init__.py): the linear sequence of git commands that
 * splices the source history under the origin branch. A raised
 * `GitException` becomes a `Failure` result; the first faulting command ends
 * the sequence and nothing is rolled back.
 */
module FixRepo {
  import opened Wrappers
  import opened Config
  import opened Git

  /*
   * The wording of `fix`'s messages. Each is a named constant so that the
   * proofs handle it as one value rather than character by character.
   */
  const CannotAddRemote: string := "cannot add `source_remote` or `source`"
  const CannotFetch: string := "cannot fetch `source_remote` or `source_branch`"
  const CannotReadLatest: string := "cannot retrieve hash for `origin_remote` or `origin_branch`"
  const CannotReadSource: string := "cannot retrieve hash for `source_remote` or `source_branch`"
  const CannotCheckoutSource: string := "cannot checkout last hash for `source_remote` or `source_remote`"
  const CannotCreateFixBranch: string := "cannot checkout `fix_branch` or `fix_branch`"
  const CannotCommit: string := "cannot commit to `fix_branch`"
  const CannotCheckoutOrigin: string := "cannot checkout `origin_remote` or `origin_branch`"
  const CannotMergeFixBranch: string := "cannot auto-merge `fix_branch`"
  const CannotDeleteFixBranch: string := "cannot delete `fix_branch`"
  const CannotPush: string := "cannot push `origin_remote` or `origin_branch`"
  const SkippedPushing: string := "skipped pushing to `source_remote` `source_branch`"
  const CannotMergeLatest: string := "cannot merge `latest_hash` "
  const FinishedFixing: string := "Finished fixing "

  /** One `git(...)` call of `fix`: its arguments and its `error_message`. */
  datatype Step = Step(args: seq<string>, message: string)

  /** The argument vector spawned for a step: `['git'] + arg_list`. */
  function Argv(step: Step): seq<string> {
    ["git"] + step.args
  }

  /** The invocations of a list of steps, all in one working directory. */
  function Invs(cwd: string, steps: seq<Step>): seq<Invocation> {
    seq(|steps|, i requires 0 <= i < |steps| => Invocation(cwd, Argv(steps[i])))
  }

  /** `"{name} <text>".format(**repo)`: the name renders as a one-element tuple. */
  function Msg(cfg: RepoConfig, text: string): string {
    cfg.name.Text() + " " + text
  }

  function AddRemote(cfg: RepoConfig): Step {
    Step(["remote", "add", cfg.sourceRemote, cfg.source],
         Msg(cfg, CannotAddRemote))
  }

  function Fetch(cfg: RepoConfig): Step {
    Step(["fetch", cfg.sourceRemote, cfg.sourceBranch],
         Msg(cfg, CannotFetch))
  }

  function LatestLog(cfg: RepoConfig): Step {
    Step(["log", "-1", "--format=\"%h\"", cfg.originRemote + "/" + cfg.originBranch],
         Msg(cfg, CannotReadLatest))
  }

  function SourceLog(cfg: RepoConfig): Step {
    Step(["log", "-1", "--format=\"%h\"", cfg.sourceRemote + "/" + cfg.sourceBranch],
         Msg(cfg, CannotReadSource))
  }

  function CheckoutSource(cfg: RepoConfig, sourceHash: string): Step {
    Step(["checkout", sourceHash],
         Msg(cfg, CannotCheckoutSource))
  }

  function CreateFixBranch(cfg: RepoConfig): Step {
    Step(["checkout", "-b", cfg.fixBranch],
         Msg(cfg, CannotCreateFixBranch))
  }

  function MergeLatest(cfg: RepoConfig, latestHash: string): Step {
    Step(["merge", latestHash],
         Msg(cfg, CannotMergeLatest + latestHash))
  }

  function Commit(cfg: RepoConfig): Step {
    Step(["commit", "-m", cfg.fixCommit],
         Msg(cfg, CannotCommit))
  }

  function CheckoutOrigin(cfg: RepoConfig): Step {
    Step(["checkout", cfg.originRemote + "/" + cfg.originBranch],
         Msg(cfg, CannotCheckoutOrigin))
  }

  function MergeFixBranch(cfg: RepoConfig): Step {
    Step(["merge", cfg.fixBranch],
         Msg(cfg, CannotMergeFixBranch))
  }

  function DeleteFixBranch(cfg: RepoConfig): Step {
    Step(["branch", "--delete", cfg.fixBranch],
         Msg(cfg, CannotDeleteFixBranch))
  }

  function Push(cfg: RepoConfig): Step {
    Step(["push", "--force", cfg.originRemote, cfg.originBranch],
         Msg(cfg, CannotPush))
  }

  /** The ten commands `fix` always attempts, in order. */
  function Core(cfg: RepoConfig, latestHash: string, sourceHash: string): seq<Step> {
    [AddRemote(cfg), Fetch(cfg), LatestLog(cfg), SourceLog(cfg),
     CheckoutSource(cfg, sourceHash), CreateFixBranch(cfg), MergeLatest(cfg, latestHash),
     Commit(cfg), CheckoutOrigin(cfg), MergeFixBranch(cfg)]
  }

  /** The optional branch deletion, gated on a falsy `keep_fix_branch`. */
  function DeleteGate(cfg: RepoConfig): seq<Step> {
    if Truthy(cfg.keepFixBranch) then [] else [DeleteFixBranch(cfg)]
  }

  /** The optional force-push, gated on a falsy `no_push`. */
  function PushGate(cfg: RepoConfig): seq<Step> {
    if Truthy(cfg.noPush) then [] else [Push(cfg)]
  }

  /** Every command `fix` issues when none of them faults. */
  function Plan(cfg: RepoConfig, latestHash: string, sourceHash: string): seq<Step> {
    Core(cfg, latestHash, sourceHash) + DeleteGate(cfg) + PushGate(cfg)
  }

  /** Where each command stands in the plan. */
  lemma PlanAt(cfg: RepoConfig, latestHash: string, sourceHash: string)
    ensures var plan := Plan(cfg, latestHash, sourceHash);
      |plan| == 10 + |DeleteGate(cfg)| + |PushGate(cfg)| &&
      plan[0] == AddRemote(cfg) && plan[1] == Fetch(cfg) &&
      plan[2] == LatestLog(cfg) && plan[3] == SourceLog(cfg) &&
      plan[4] == CheckoutSource(cfg, sourceHash) && plan[5] == CreateFixBranch(cfg) &&
      plan[6] == MergeLatest(cfg, latestHash) && plan[7] == Commit(cfg) &&
      plan[8] == CheckoutOrigin(cfg) && plan[9] == MergeFixBranch(cfg) &&
      plan[..2] == [AddRemote(cfg), Fetch(cfg)] &&
      plan[..3] == [AddRemote(cfg), Fetch(cfg), LatestLog(cfg)] &&
      (!Truthy(cfg.keepFixBranch) ==> plan[10] == DeleteFixBranch(cfg)) &&
      (!Truthy(cfg.noPush) ==> plan[|plan| - 1] == Push(cfg))
  {
  }

  /** The `out` of `fix`'s success dictionary; the wording is inverted with respect to the gate. */
  function SuccessMessage(cfg: RepoConfig): string {
    if Truthy(cfg.noPush) then FinishedFixing + cfg.dir
    else Msg(cfg, SkippedPushing)
  }

  /** The commands issued so far: the statuses of the ones that passed, the fault if one was raised. */
  datatype Trace = Trace(results: seq<Status>, fault: Option<GitException>, log: seq<Invocation>)

  /** Issues `steps` one after another in `cwd`, stopping after the first that faults. */
  function RunSteps(run: Runner, cwd: string, log: seq<Invocation>, steps: seq<Step>): (t: Trace)
    ensures t.fault.None? ==> |t.results| == |steps|
    decreases |steps|
  {
    if steps == [] then Trace([], None, log)
    else
      var inv := Invocation(cwd, Argv(steps[0]));
      var s := run(log, inv);
      if Faults(s) then Trace([], Some(GitException(steps[0].message, s)), log + [inv])
      else
        var t := RunSteps(run, cwd, log + [inv], steps[1..]);
        Trace([s] + t.results, t.fault, t.log)
  }

  /** The invocations of a concatenation are the concatenation of the invocations. */
  lemma InvsAppend(cwd: string, a: seq<Step>, b: seq<Step>)
    ensures Invs(cwd, a + b) == Invs(cwd, a) + Invs(cwd, b)
  {
  }

  /**
   * The commands `RunSteps` issues: a prefix of the steps, all of them when
   * nothing faulted, at least one when something did.
   */
  lemma {:induction false} RunStepsLog(run: Runner, cwd: string, log0: seq<Invocation>, steps: seq<Step>)
    ensures var t := RunSteps(run, cwd, log0, steps);
      |log0| <= |t.log| <= |log0| + |steps| &&
      t.log == log0 + Invs(cwd, steps[..|t.log| - |log0|])
    ensures var t := RunSteps(run, cwd, log0, steps);
      (t.fault.None? ==> |t.log| == |log0| + |steps|) &&
      (t.fault.Some? ==> |t.log| > |log0| && |t.results| == |t.log| - |log0| - 1)
    decreases |steps|
  {
    if steps != [] {
      var inv := Invocation(cwd, Argv(steps[0]));
      assert Invs(cwd, steps[..1]) == [inv];
      if !Faults(run(log0, inv)) {
        var log1 := log0 + [inv];
        RunStepsLog(run, cwd, log1, steps[1..]);
        var t1 := RunSteps(run, cwd, log1, steps[1..]);
        var n1 := |t1.log| - |log1|;
        assert steps[..n1 + 1] == [steps[0]] + steps[1..][..n1];
        InvsAppend(cwd, [steps[0]], steps[1..][..n1]);
      }
    }
  }

  /** Every status `RunSteps` reports is the runner's answer to the matching command, and passed. */
  lemma {:induction false} RunStepsResults(run: Runner, cwd: string, log0: seq<Invocation>, steps: seq<Step>)
    ensures var t := RunSteps(run, cwd, log0, steps);
      forall k :: 0 <= k < |t.results| ==>
        |log0| + k < |t.log| && t.results[k] == StatusAt(run, t.log, |log0| + k) && !Faults(t.results[k])
    decreases |steps|
  {
    if steps != [] {
      var inv := Invocation(cwd, Argv(steps[0]));
      var s := run(log0, inv);
      if !Faults(s) {
        var t := RunSteps(run, cwd, log0, steps);
        var log1 := log0 + [inv];
        RunStepsLog(run, cwd, log1, steps[1..]);
        RunStepsResults(run, cwd, log1, steps[1..]);
        var t1 := RunSteps(run, cwd, log1, steps[1..]);
        assert t.log[..|log0|] == log0 && t.log[|log0|] == inv;
        forall k | 0 <= k < |t.results|
          ensures |log0| + k < |t.log| && t.results[k] == StatusAt(run, t.log, |log0| + k) && !Faults(t.results[k])
        {
          if k > 0 {
            assert t.results[k] == t1.results[k - 1];
          }
        }
      }
    }
  }

  /** When `RunSteps` reports a fault, it is the last command's, with that step's message. */
  lemma {:induction false} RunStepsFault(run: Runner, cwd: string, log0: seq<Invocation>, steps: seq<Step>)
    ensures var t := RunSteps(run, cwd, log0, steps);
      t.fault.Some? ==>
        |log0| < |t.log| <= |log0| + |steps| &&
        Faults(StatusAt(run, t.log, |t.log| - 1)) &&
        t.fault.value == GitException(steps[|t.log| - |log0| - 1].message, StatusAt(run, t.log, |t.log| - 1))
    decreases |steps|
  {
    RunStepsLog(run, cwd, log0, steps);
    if steps != [] {
      var inv := Invocation(cwd, Argv(steps[0]));
      var t := RunSteps(run, cwd, log0, steps);
      if Faults(run(log0, inv)) {
        assert t.log[..|log0|] == log0;
      } else {
        RunStepsFault(run, cwd, log0 + [inv], steps[1..]);
      }
    }
  }

  /** Issuing one more step after a fault-free run. */
  lemma {:induction false} RunStepsSnoc(run: Runner, cwd: string, log0: seq<Invocation>, steps: seq<Step>, step: Step)
    requires RunSteps(run, cwd, log0, steps).fault.None?
    ensures var t := RunSteps(run, cwd, log0, steps);
      var inv := Invocation(cwd, Argv(step));
      var s := run(t.log, inv);
      RunSteps(run, cwd, log0, steps + [step])
        == if Faults(s) then Trace(t.results, Some(GitException(step.message, s)), t.log + [inv])
           else Trace(t.results + [s], None, t.log + [inv])
    decreases |steps|
  {
    if steps == [] {
      assert [] + [step] == [step];
    } else {
      var inv0 := Invocation(cwd, Argv(steps[0]));
      assert (steps + [step])[0] == steps[0];
      assert (steps + [step])[1..] == steps[1..] + [step];
      RunStepsSnoc(run, cwd, log0 + [inv0], steps[1..], step);
      var t1 := RunSteps(run, cwd, log0 + [inv0], steps[1..]);
      var s0 := run(log0, inv0);
      assert [s0] + (t1.results + [run(t1.log, Invocation(cwd, Argv(step)))])
          == ([s0] + t1.results) + [run(t1.log, Invocation(cwd, Argv(step)))];
    }
  }

  /** Once a step has faulted, later steps change nothing: they are never issued. */
  lemma {:induction false} AbortPersists(run: Runner, cwd: string, log0: seq<Invocation>, steps: seq<Step>, more: seq<Step>)
    requires RunSteps(run, cwd, log0, steps).fault.Some?
    ensures RunSteps(run, cwd, log0, steps + more) == RunSteps(run, cwd, log0, steps)
    decreases |steps|
  {
    var inv0 := Invocation(cwd, Argv(steps[0]));
    assert (steps + more)[0] == steps[0];
    if !Faults(run(log0, inv0)) {
      assert (steps + more)[1..] == steps[1..] + more;
      AbortPersists(run, cwd, log0 + [inv0], steps[1..], more);
    }
  }

  /** The `out` of `git log -1` on `origin_remote/origin_branch`, issued third. */
  function LatestHash(run: Runner, cwd: string, log0: seq<Invocation>, cfg: RepoConfig): string {
    run(log0 + Invs(cwd, [AddRemote(cfg), Fetch(cfg)]), Invocation(cwd, Argv(LatestLog(cfg)))).out
  }

  /** The `out` of `git log -1` on `source_remote/source_branch`, issued fourth. */
  function SourceHash(run: Runner, cwd: string, log0: seq<Invocation>, cfg: RepoConfig): string {
    run(log0 + Invs(cwd, [AddRemote(cfg), Fetch(cfg), LatestLog(cfg)]), Invocation(cwd, Argv(SourceLog(cfg)))).out
  }

  /** The plan of one `fix` call, with the hashes the two `log` commands answer. */
  function FixPlan(run: Runner, cwd: string, log0: seq<Invocation>, cfg: RepoConfig): seq<Step> {
    Plan(cfg, LatestHash(run, cwd, log0, cfg), SourceHash(run, cwd, log0, cfg))
  }

  /** The result of one `fix` call and the log after it. */
  datatype FixRun = FixRun(result: Result<Status, GitException>, log: seq<Invocation>)

  /** What `fix(repo)` returns or raises, and the commands it issues. */
  function FixSpec(run: Runner, cwd: string, log0: seq<Invocation>, cfg: RepoConfig): FixRun {
    var t := RunSteps(run, cwd, log0, FixPlan(run, cwd, log0, cfg));
    if t.fault.Some? then FixRun(Failure(t.fault.value), t.log)
    else FixRun(Success(Status(0, SuccessMessage(cfg), "")), t.log)
  }

  /** `log` is `log0` followed by the first `k` steps, each of which passed. */
  ghost predicate Ready(run: Runner, cwd: string, log0: seq<Invocation>, steps: seq<Step>, k: nat, log: seq<Invocation>)
    decreases k
  {
    k <= |steps| &&
    if k == 0 then log == log0
    else
      |log| > 0 &&
      log[|log| - 1] == Invocation(cwd, Argv(steps[k - 1])) &&
      !Faults(run(log[..|log| - 1], log[|log| - 1])) &&
      Ready(run, cwd, log0, steps, k - 1, log[..|log| - 1])
  }

  /** A ready prefix is exactly what `RunSteps` makes of the first `k` steps. */
  lemma {:induction false} ReadyRuns(run: Runner, cwd: string, log0: seq<Invocation>, steps: seq<Step>, k: nat, log: seq<Invocation>)
    requires Ready(run, cwd, log0, steps, k, log)
    ensures log == log0 + Invs(cwd, steps[..k])
    ensures RunSteps(run, cwd, log0, steps[..k]).fault.None?
    ensures RunSteps(run, cwd, log0, steps[..k]).log == log
    decreases k
  {
    if k == 0 {
      assert steps[..0] == [];
    } else {
      var prev := log[..|log| - 1];
      ReadyRuns(run, cwd, log0, steps, k - 1, prev);
      RunStepsSnoc(run, cwd, log0, steps[..k - 1], steps[k - 1]);
      assert steps[..k - 1] + [steps[k - 1]] == steps[..k];
      InvsAppend(cwd, steps[..k - 1], [steps[k - 1]]);
      assert log == prev + [log[|log| - 1]];
    }
  }

  /** What issuing step `k` of a plan leads to, given the runner's answer `s`. */
  lemma Advance(run: Runner, cwd: string, log0: seq<Invocation>, plan: seq<Step>, k: nat, log: seq<Invocation>, s: Status)
    requires k < |plan| && Ready(run, cwd, log0, plan, k, log)
    requires s == run(log, Invocation(cwd, Argv(plan[k])))
    ensures log == log0 + Invs(cwd, plan[..k])
    ensures var log' := log + [Invocation(cwd, Argv(plan[k]))];
      (!Faults(s) ==> Ready(run, cwd, log0, plan, k + 1, log')) &&
      (!Faults(s) && k + 1 == |plan| ==>
        RunSteps(run, cwd, log0, plan).fault.None? && RunSteps(run, cwd, log0, plan).log == log') &&
      (Faults(s) ==>
        RunSteps(run, cwd, log0, plan).fault == Some(GitException(plan[k].message, s)) &&
        RunSteps(run, cwd, log0, plan).log == log')
  {
    var log' := log + [Invocation(cwd, Argv(plan[k]))];
    assert log'[..|log'| - 1] == log;
    ReadyRuns(run, cwd, log0, plan, k, log);
    RunStepsSnoc(run, cwd, log0, plan[..k], plan[k]);
    assert plan[..k] + [plan[k]] == plan[..k + 1];
    if Faults(s) {
      AbortPersists(run, cwd, log0, plan[..k + 1], plan[k + 1..]);
      assert plan[..k + 1] + plan[k + 1..] == plan;
    } else if k + 1 == |plan| {
      assert plan[..k + 1] == plan;
    }
  }

  /** One `git(...)` call of `fix`, issued as step `k` of its plan. */
  method Issue(p: Process, cfg: RepoConfig, step: Step, ghost cwd: string, ghost log0: seq<Invocation>, ghost k: nat)
    returns (r: Result<Status, GitException>)
    requires p.cwd == cwd
    requires k < |FixPlan(p.env.run, cwd, log0, cfg)| && FixPlan(p.env.run, cwd, log0, cfg)[k] == step
    requires Ready(p.env.run, cwd, log0, FixPlan(p.env.run, cwd, log0, cfg), k, p.log)
    modifies p
    ensures p.cwd == cwd
    ensures old(p.log) == log0 + Invs(cwd, FixPlan(p.env.run, cwd, log0, cfg)[..k])
    ensures r.Success? ==> r.value == p.env.run(old(p.log), Invocation(cwd, Argv(step)))
    ensures r.Success? ==> Ready(p.env.run, cwd, log0, FixPlan(p.env.run, cwd, log0, cfg), k + 1, p.log)
    ensures r.Success? && k + 1 == |FixPlan(p.env.run, cwd, log0, cfg)| ==>
      FixSpec(p.env.run, cwd, log0, cfg) == FixRun(Success(Status(0, SuccessMessage(cfg), "")), p.log)
    ensures r.Failure? ==> FixSpec(p.env.run, cwd, log0, cfg) == FixRun(r, p.log)
  {
    ghost var plan := FixPlan(p.env.run, cwd, log0, cfg);
    Advance(p.env.run, cwd, log0, plan, k, p.log, p.env.run(p.log, Invocation(cwd, Argv(step))));
    r := p.Git(step.args, step.message, cfg.verbose);
  }

  /**
   * The first four commands of `fix`: add the origin remote, fetch it, and
   * read the two hashes that the later commands use.
   */
  method ReadHashes(p: Process, cfg: RepoConfig, ghost cwd: string, ghost log0: seq<Invocation>)
    returns (r: Result<(string, string), GitException>)
    requires p.cwd == cwd && p.log == log0
    modifies p
    ensures p.cwd == cwd
    ensures r.Success? ==>
      r.value == (LatestHash(p.env.run, cwd, log0, cfg), SourceHash(p.env.run, cwd, log0, cfg)) &&
      Ready(p.env.run, cwd, log0, FixPlan(p.env.run, cwd, log0, cfg), 4, p.log)
    ensures r.Failure? ==> FixSpec(p.env.run, cwd, log0, cfg) == FixRun(Failure(r.error), p.log)
  {
    PlanAt(cfg, LatestHash(p.env.run, cwd, log0, cfg), SourceHash(p.env.run, cwd, log0, cfg));
    assert log0[..0] == [] && [] + log0 == log0;
    var s := Issue(p, cfg, AddRemote(cfg), cwd, log0, 0);
    if s.Failure? { return Failure(s.error); }
    s := Issue(p, cfg, Fetch(cfg), cwd, log0, 1);
    if s.Failure? { return Failure(s.error); }
    var latest := Issue(p, cfg, LatestLog(cfg), cwd, log0, 2);
    if latest.Failure? { return Failure(latest.error); }
    var source := Issue(p, cfg, SourceLog(cfg), cwd, log0, 3);
    if source.Failure? { return Failure(source.error); }
    r := Success((latest.value.out, source.value.out));
  }

  /**
   * The six commands of `fix` that build the merge: check out the source
   * commit, branch, merge the origin commit, commit, and merge the branch back.
   */
  method MergeOnFixBranch(p: Process, cfg: RepoConfig, latestHash: string, sourceHash: string,
                          ghost cwd: string, ghost log0: seq<Invocation>)
    returns (r: Result<Status, GitException>)
    requires p.cwd == cwd
    requires latestHash == LatestHash(p.env.run, cwd, log0, cfg)
    requires sourceHash == SourceHash(p.env.run, cwd, log0, cfg)
    requires Ready(p.env.run, cwd, log0, FixPlan(p.env.run, cwd, log0, cfg), 4, p.log)
    modifies p
    ensures p.cwd == cwd
    ensures r.Success? ==> Ready(p.env.run, cwd, log0, FixPlan(p.env.run, cwd, log0, cfg), 10, p.log)
    ensures r.Failure? ==> FixSpec(p.env.run, cwd, log0, cfg) == FixRun(r, p.log)
  {
    PlanAt(cfg, latestHash, sourceHash);
    r := Issue(p, cfg, CheckoutSource(cfg, sourceHash), cwd, log0, 4);
    if r.Failure? { return; }
    r := Issue(p, cfg, CreateFixBranch(cfg), cwd, log0, 5);
    if r.Failure? { return; }
    r := Issue(p, cfg, MergeLatest(cfg, latestHash), cwd, log0, 6);
    if r.Failure? { return; }
    r := Issue(p, cfg, Commit(cfg), cwd, log0, 7);
    if r.Failure? { return; }
    r := Issue(p, cfg, CheckoutOrigin(cfg), cwd, log0, 8);
    if r.Failure? { return; }
    r := Issue(p, cfg, MergeFixBranch(cfg), cwd, log0, 9);
  }

  /**
   * The last commands of `fix`: delete the fix branch unless it is kept, and
   * force-push unless pushing is switched off; then the success dictionary.
   */
  method Finish(p: Process, cfg: RepoConfig, ghost latestHash: string, ghost sourceHash: string,
                ghost cwd: string, ghost log0: seq<Invocation>)
    returns (r: Result<Status, GitException>)
    requires p.cwd == cwd
    requires latestHash == LatestHash(p.env.run, cwd, log0, cfg)
    requires sourceHash == SourceHash(p.env.run, cwd, log0, cfg)
    requires Ready(p.env.run, cwd, log0, FixPlan(p.env.run, cwd, log0, cfg), 10, p.log)
    modifies p
    ensures p.cwd == cwd
    ensures FixSpec(p.env.run, cwd, log0, cfg) == FixRun(r, p.log)
  {
    PlanAt(cfg, latestHash, sourceHash);
    ghost var plan := FixPlan(p.env.run, cwd, log0, cfg);
    if Truthy(cfg.keepFixBranch) && Truthy(cfg.noPush) {
      ReadyRuns(p.env.run, cwd, log0, plan, 10, p.log);
      assert plan[..10] == plan;
    }
    ghost var k := 10;
    if !Truthy(cfg.keepFixBranch) {
      r := Issue(p, cfg, DeleteFixBranch(cfg), cwd, log0, k);
      if r.Failure? { return; }
      k := k + 1;
    }

    var outMessage := FinishedFixing + cfg.dir;
    if !Truthy(cfg.noPush) {
      r := Issue(p, cfg, Push(cfg), cwd, log0, k);
      if r.Failure? { return; }
      outMessage := Msg(cfg, SkippedPushing);
    }
    r := Success(Status(0, outMessage, ""));
  }

  /**
   * `fix(repo)`: the commands of lib/__init__.py in their order; the
   * emptiness check on the two hashes builds a `ValueError` it never raises,
   * so it has no effect here.
   */
  method Fix(p: Process, cfg: RepoConfig) returns (r: Result<Status, GitException>)
    modifies p
    ensures p.cwd == old(p.cwd)
    ensures FixRun(r, p.log) == FixSpec(p.env.run, p.cwd, old(p.log), cfg)
  {
    ghost var log0, cwd := p.log, p.cwd;
    var hashes := ReadHashes(p, cfg, cwd, log0);
    if hashes.Failure? { return Failure(hashes.error); }
    var (latestHash, sourceHash) := hashes.value;
    r := MergeOnFixBranch(p, cfg, latestHash, sourceHash, cwd, log0);
    if r.Failure? { return; }
    r := Finish(p, cfg, latestHash, sourceHash, cwd, log0);
  }
}
