/**
 * The command runner, the fault policy of `git(...)`, `GitException` and
 * `os_cd` (lib/__init__.py). The external `git` binary, the process working
 * directory and the filesystem are not modelled: they are oracles held in an
 * `Env`, and a `Process` records every command it issues in `log`.
 */
module Git {
  import opened Wrappers
  import opened Paths

  /** The dictionary `run(cmd)` returns: exit code, standard out, standard error. */
  datatype Status = Status(code: int, out: string, err: string)

  /** `GitException(error_message, status)`. */
  datatype GitException = GitException(message: string, status: Status)

  /** One command as spawned: the working directory and the full argument vector. */
  datatype Invocation = Invocation(cwd: string, argv: seq<string>)

  /**
   * The answer of the external command to an invocation, given every command
   * the process issued before it (git's effects on repositories are state).
   */
  type Runner = (seq<Invocation>, Invocation) -> Status

  /** `os.path.abspath` of a path relative to a working directory. */
  type AbsPathFn = f: (string, string) -> string | forall cwd, path :: IsAbsolute(f(cwd, path))
    witness (cwd: string, path: string) => [Sep]

  /** The world outside the process: git, `os.path.isdir`, `os.path.abspath`. */
  datatype Env = Env(run: Runner, isDir: (string, string) -> bool, absPath: AbsPathFn)

  /** The condition under which `git(...)` raises. */
  predicate Faults(s: Status) {
    s.code > 0 || |s.err| > 0
  }

  /** The decision `git(...)` takes on a captured status. */
  function Classify(s: Status, message: string): (r: Result<Status, GitException>)
    ensures r.Failure? <==> (s.code > 0 || s.err != "")
    ensures r.Success? ==> r.value == s
    ensures r.Failure? ==> r.error == GitException(message, s)
  {
    if Faults(s) then Failure(GitException(message, s)) else Success(s)
  }

  /** Either condition alone raises; a negative code with an empty stream does not. */
  lemma FaultPolicyCases(code: int, out: string, err: string, message: string)
    ensures code > 0 ==> Classify(Status(code, out, err), message).Failure?
    ensures err != "" ==> Classify(Status(code, out, err), message).Failure?
    ensures code <= 0 && err == "" ==> Classify(Status(code, out, err), message) == Success(Status(code, out, err))
  {
  }

  /** The status of the k-th command of a log, as the runner answered it. */
  function StatusAt(run: Runner, log: seq<Invocation>, k: nat): Status
    requires k < |log|
  {
    run(log[..k], log[k])
  }

  /** The running Python process: its working directory and the commands it has spawned. */
  class Process {
    const env: Env
    var cwd: string
    var log: seq<Invocation>

    constructor (env: Env, cwd: string)
      ensures this.env == env && this.cwd == cwd && log == []
    {
      this.env := env;
      this.cwd := cwd;
      log := [];
    }

    /** `git(arg_list, error_message, verbose)`; verbose only prints. */
    method Git(args: seq<string>, message: string, verbose: bool) returns (r: Result<Status, GitException>)
      modifies this
      ensures cwd == old(cwd)
      ensures log == old(log) + [Invocation(cwd, ["git"] + args)]
      ensures r == Classify(env.run(old(log), Invocation(cwd, ["git"] + args)), message)
    {
      var invocation := Invocation(cwd, ["git"] + args);
      var status := env.run(log, invocation);
      log := log + [invocation];
      r := Classify(status, message);
    }

    /** `os_cd(path)`: a `TypeError` (its message here) when there is no such directory. */
    method OsCd(path: string) returns (r: Result<(), string>)
      modifies this
      ensures log == old(log)
      ensures r.Success? <==> env.isDir(old(cwd), path)
      ensures r.Success? ==> cwd == env.absPath(old(cwd), path)
      ensures r.Failure? ==> cwd == old(cwd) && r.error == "No directory at " + path
    {
      if !env.isDir(cwd, path) {
        return Failure("No directory at " + path);
      }
      cwd := env.absPath(cwd, path);
      r := Success(());
    }
  }
}
