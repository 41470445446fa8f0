# fix_logs: a Dafny model of the history-fix batch

`fix_logs` (git-utilities) re-attaches a forked repository's history to the
repository it came from. It works one repository at a time, and `fix` does
the work for each one:

1. Add the source repository as a remote and fetch its branch.
2. Read the newest commit hash of each side.
3. Check out the source commit on a fix branch and merge the origin commit into it.
4. Commit, then merge the fix branch back into the origin branch.
5. Delete the fix branch, unless `keep_fix_branch` is set.
6. Force-push, unless `no_push` is set.

Every step is one call of the external `git` binary through `git(...)`. That
function raises `GitException` when the command's result counts as a fault.
The first fault ends `fix` for that repository.

`main` consolidates each configured repository over the batch defaults, runs
`fix` on it, and sorts the outcome into `fixed_list` or `failed_list`.
`merge_failed.py` does a second pass over the failure records: it changes
into each repository and runs `git mergetool`, sorting the outcomes into
`merged_list` and `conflicts_list`.

The model covers these pieces.

- **`git.dfy`, module `Git`**
  - The command runner is an oracle. It answers each invocation given every command issued before it, since git's effects on repositories are state.
  - `Classify` is the fault policy of `git(...)`.
  - `Process` is the running process. Its working directory and its log of issued commands are fields. `Git` and `OsCd` update them.
- **`paths.dfy`, module `Paths`**: `str.split` on the path separator and `parent_directory_name`.
- **`config.dfy`, module `Config`**: `consolidate_repo_configs`, field by field.
- **`fix_repo.dfy`, module `FixRepo`**
  - `FixSpec` is a specification function: the plan of up to twelve commands, issued until the first fault.
  - `Fix` is the step-by-step method, proved equal to `FixSpec`.
  - The method is split into three phases: the hash reads, the merge and the gated tail. Each phase stays small for the verifier.
- **`fix_laws.dfy`, module `FixLaws`**: what `FixSpec` implies.
  - The command order and the abort on the first fault.
  - The two gates, and push always coming last.
  - The hashes flowing from the `log` commands into `checkout` and `merge`.
  - The success message.
- **`records.dfy`, module `Records`**: the success and failure records, and how a run of outcomes splits into two order-preserving lists.
- **`batch.dfy`, module `Batch`**: the loop of `main`, proved against `Sweep`, a specification over any per-entry `fix`.
- **`merge_failed.dfy`, module `MergeFailed`**: the loop of merge_failed.py, proved against `PassSpec`. This includes the exceptions that escape it.

## Behaviour as written

- **Fault rule.** `git(...)` raises when the exit code is positive **or** the error stream is non-empty (lib/__init__.py:103). Either condition alone raises.
  - An informational message on standard error therefore aborts `fix`.
  - A negative exit code with an empty error stream does not.
- **Fixed records.** A fixed record is `fix`'s own result dictionary (`code`, `err`, `out`) with `repository_dir` and `repository_source` added in place.
- **The `name` key.** It is taken from the entry's `origin_branch` key when that key is present. Otherwise it is the parent directory name. A trailing comma makes it a one-element tuple, so messages render it as `('name',)`.
- **Documented flags and name.** The docstring of `consolidate_repo_configs` swaps two flag descriptions (lib/__init__.py:196-197).
  - It says `keep_fix_branch` skips the push and `no_push` skips deleting the fix branch.
  - The code does the reverse: `keep_fix_branch` gates the deletion (297) and `no_push` gates the push (303). The model follows the code.
  - The same docstring (186) says `name` comes from the entry's `name` key. Line 212 reads `origin_branch` instead, and the model follows line 212.
- **Success message.** The wording is inverted with respect to the push gate:
  - "Finished fixing <dir>" when no push was issued;
  - "... skipped pushing ..." when a push was issued.
- **Hash check.** The emptiness check on the two hashes builds a `ValueError` but never raises it. The hashes are used verbatim.
- **merge_failed.py exceptions.** `os_cd` raises `TypeError` for a missing directory, and a failure record has no `source` key, so `repo['source']` raises `KeyError`. Neither is caught. Either one ends the pass before the lists are written.

## Model

| member | source | states |
|---|---|---|
| Git.Classify | lib/__init__.py:102-109 | The call raises exactly when the code is positive or the error stream is non-empty. It raises with the given message and the status. Otherwise the status is returned unchanged. |
| Git.Faults | lib/__init__.py:103 | The fault condition as a predicate: a positive exit code or a non-empty error stream. |
| Git.FaultPolicyCases | lib/__init__.py:103-104 | Either condition alone raises. A zero or negative code with an empty error stream returns the status. |
| Git.Process.Git | lib/__init__.py:83-109 | Spawns `["git"] + args` in the current directory and appends it to the log. The result is the fault policy applied to the runner's answer. The directory is unchanged. |
| Git.Process.OsCd | lib/__init__.py:42-53 | Fails with "No directory at <path>" exactly when the path is not a directory, leaving the directory unchanged. Otherwise the directory becomes the path's absolute form. No command is issued either way. |
| Paths.Split | lib/__init__.py:120 | `str.split` yields at least one piece. No piece holds the separator. There are two or more pieces exactly when the separator occurs. |
| Paths.JoinSplit | lib/__init__.py:120 | Joining the pieces with the separator gives back the string. |
| Paths.SplitJoin | lib/__init__.py:120 | Splitting a join of separator-free pieces gives back the pieces. |
| Paths.SplitAround | lib/__init__.py:120 | Splitting at a separator splits the two sides independently. |
| Paths.ParentDirectoryName | lib/__init__.py:112-120 | The second-to-last piece of an absolute path holds no separator. |
| Paths.ParentOfNested | lib/__init__.py:112-120 | For `a/b/c` with separator-free `b` and `c`, the parent directory name is `b`. |
| Paths.ParentOfTopLevel | lib/__init__.py:112-120 | For `b/c` the parent directory name is `b`, which is empty for `/c`. |
| Config.Consolidate | lib/__init__.py:199-212 | `dir` and `source` are copied. Each of the six names and the two flags is the entry's value if present, else the default. `verbose` comes from the defaults only, false when absent. `name` is the entry's `origin_branch` if present, else the parent directory name. |
| Config.OneTuple.Text | lib/__init__.py:248 | How `{name}` renders the one-element tuple that `name` holds: `('<item>',)`. |
| Config.ConsolidateNameFromDirectory | lib/__init__.py:212 | Without `origin_branch`, for an absolute `dir` of the form `a/b/c` with separator-free `b` and `c`, `name` is the one-element tuple `(b,)`, whatever the entry's `name` key says. |
| Config.ConsolidateNameAtTopLevel | lib/__init__.py:212 | Without `origin_branch`, for an absolute `dir` directly under the root, `name` is the one-element tuple of the text before its only separator, which is `('',)` for `/c`. |
| Config.ConsolidateOverridesWin | lib/__init__.py:199-211 | Defaults that the entry overrides have no effect on the result. |
| Config.ConsolidateIgnoresVerboseAndName | lib/__init__.py:199-212 | The entry's own `verbose` and `name` keys have no effect on the result. |
| FixRepo.Msg | lib/__init__.py:248 | Every error message of `fix` is the rendered `name`, a space, then the step's own wording. |
| FixRepo.AddRemote | lib/__init__.py:247-249 | `remote add <source_remote> <source>`, with its message. |
| FixRepo.Fetch | lib/__init__.py:251-253 | `fetch <source_remote> <source_branch>`, with its message. |
| FixRepo.LatestLog | lib/__init__.py:256-262 | `log -1 --format="%h" <origin_remote>/<origin_branch>`, with its message. |
| FixRepo.SourceLog | lib/__init__.py:264-268 | `log -1 --format="%h" <source_remote>/<source_branch>`, with its message. |
| FixRepo.CheckoutSource | lib/__init__.py:273-275 | `checkout <source_hash>`, with its message. |
| FixRepo.CreateFixBranch | lib/__init__.py:277-279 | `checkout -b <fix_branch>`, with its message. |
| FixRepo.MergeLatest | lib/__init__.py:281-283 | `merge <latest_hash>`, with a message ending in the hash. |
| FixRepo.Commit | lib/__init__.py:285-287 | `commit -m <fix_commit>`, with its message. |
| FixRepo.CheckoutOrigin | lib/__init__.py:289-291 | `checkout <origin_remote>/<origin_branch>`, with its message. |
| FixRepo.MergeFixBranch | lib/__init__.py:293-295 | `merge <fix_branch>`, with its message. |
| FixRepo.DeleteFixBranch | lib/__init__.py:298-300 | `branch --delete <fix_branch>`, with its message. |
| FixRepo.Push | lib/__init__.py:304-306 | `push --force <origin_remote> <origin_branch>`, with its message. |
| FixRepo.Core | lib/__init__.py:247-295 | The ten unconditional commands of `fix`, in source order. |
| FixRepo.DeleteGate | lib/__init__.py:297-300 | The deletion when `keep_fix_branch` is falsy, nothing otherwise. |
| FixRepo.PushGate | lib/__init__.py:303-306 | The push when `no_push` is falsy, nothing otherwise. |
| FixRepo.Plan | lib/__init__.py:247-306 | The ten commands followed by the two gated ones. |
| FixRepo.SuccessMessage | lib/__init__.py:302-308 | "Finished fixing <dir>" when `no_push` is truthy, otherwise the "skipped pushing" message. |
| FixRepo.LatestHash | lib/__init__.py:256-262 | The `out` of the third command, read from the log. |
| FixRepo.SourceHash | lib/__init__.py:264-268 | The `out` of the fourth command, read from the log. |
| FixRepo.FixSpec | lib/__init__.py:217-314 | The plan, with the logged hashes, issued until the first fault. The result is that fault, or code 0, empty err and the success message. Its properties are the `FixLaws` lemmas. |
| FixRepo.PlanAt | lib/__init__.py:247-306 | The plan holds the ten fixed commands in source order. The deletion is eleventh when not kept. The push is last when not switched off. |
| FixRepo.RunSteps | lib/__init__.py:247-306 | When no step faults, every step has a result. |
| FixRepo.RunStepsLog | lib/__init__.py:247-306 | The commands issued are a prefix of the steps, in order. It is all of them without a fault, and at least one with a fault. |
| FixRepo.RunStepsResults | lib/__init__.py:102-109 | Every reported result is the runner's answer to the matching logged command, and passed. |
| FixRepo.RunStepsFault | lib/__init__.py:103-104 | A reported fault belongs to the last logged command, with that step's message and status. |
| FixRepo.RunStepsSnoc | lib/__init__.py:247-306 | After a fault-free run, one more step either faults with its own message or appends its result. |
| FixRepo.AbortPersists | lib/__init__.py:103-104 | Once a step faults, later steps are never issued. |
| FixRepo.Issue | lib/__init__.py:247-306 | Issues the k-th planned command. It keeps the phase invariant on success and settles the whole `fix` outcome on a fault or on the last command. |
| FixRepo.ReadHashes | lib/__init__.py:247-268 | The first four commands. On success the two hashes are the `out` of the two `log` commands. On a fault, `fix`'s outcome is that fault. |
| FixRepo.MergeOnFixBranch | lib/__init__.py:273-295 | Commands five to ten. It keeps the invariant, or settles `fix`'s outcome on a fault. |
| FixRepo.Finish | lib/__init__.py:297-314 | The gated deletion and push, then the success dictionary. The result equals `fix`'s specified outcome. |
| FixRepo.Fix | lib/__init__.py:217-314 | The result and the new log are exactly `FixSpec`. The working directory is unchanged. |
| FixLaws.RunStepsOutcome | lib/__init__.py:102-109 | A run of steps issues a prefix of them. All issued commands but the last passed. It faults exactly when the last one faulted, with that step's message. |
| FixLaws.FixLog | lib/__init__.py:247-306 | `fix` issues a non-empty prefix of its plan, in order. |
| FixLaws.FixOutcome | lib/__init__.py:247-314 | Every command but the last passed. `fix` raises exactly when the last one faulted, with its message and status. On return the whole plan was issued, with code 0, empty err and the success message. |
| FixLaws.FixSucceeds | lib/__init__.py:247-306 | On success the log grows by the ten fixed commands and then exactly the gated ones. |
| FixLaws.IssuedAt | lib/__init__.py:247-306 | The k-th command issued is the k-th step of the plan, after exactly the first k steps. |
| FixLaws.FixUsesLoggedHashes | lib/__init__.py:256-283 | The fifth command checks out the fourth command's `out`. The seventh merges the third command's `out`. Neither is checked. |
| FixLaws.StepKinds | lib/__init__.py:247-306 | None of the ten fixed commands is a branch deletion or a push. |
| FixLaws.GatedTail | lib/__init__.py:297-306 | On success, after the first ten commands come exactly the gated ones. |
| FixLaws.FixDeleteGate | lib/__init__.py:297-300 | On success `branch --delete` was issued exactly when `keep_fix_branch` is falsy. |
| FixLaws.FixPushGate | lib/__init__.py:303-306 | On success a push was issued exactly when `no_push` is falsy. When issued, it was the last command. |
| FixLaws.FixSuccessMessage | lib/__init__.py:302-314 | On success: code 0 and empty err. `out` is the "skipped pushing" message when a push was issued, otherwise "Finished fixing <dir>". |
| FixLaws.FixAbort | lib/__init__.py:103-104 | If the k-th command faults, it is the last one issued. `fix` raises with that step's message and status. |
| Records.FaultOf | lib/__init__.py:339-345 | A failure record copies `dir`, the exception's message and its status. |
| Records.DoneOnes | lib/__init__.py:349-353 | `fixed_list`: the success records of a run of outcomes, in order. |
| Records.FaultedOnes | lib/__init__.py:339-345 | `failed_list`: the failure records of a run of outcomes, in order. |
| Records.PrefixLists | lib/__init__.py:334-355 | The lists built from a prefix of the outcomes are prefixes of the final lists. |
| Records.PartitionSizes | lib/__init__.py:334-355 | The two lists together are as long as the run of outcomes. |
| Records.Placement | lib/__init__.py:334-355 | The i-th outcome is in its own list, after exactly the earlier outcomes of its kind. |
| Records.KeepsOrder | lib/__init__.py:334-355 | A later outcome of the same kind comes later in its list. |
| Records.RankStep | lib/__init__.py:334-355 | Each outcome counts towards its own list only. |
| Records.RankGrows | lib/__init__.py:334-355 | The number of records of each kind never decreases along the run. |
| Batch.ConfigOf | lib/__init__.py:335 | The entry consolidated over the defaults, with `dir` made absolute for the name. |
| Batch.OutcomeOf | lib/__init__.py:336-353 | A returned status becomes a success record with `dir` and `source`. A raised exception becomes a failure record. |
| Batch.Sweep | lib/__init__.py:334-353 | `fix` on each entry in turn, each call starting from the log the previous one left, with one outcome per entry. |
| Batch.RunBatch | lib/__init__.py:329-355 | The new log and both lists are exactly those of `Sweep` over the entries. The working directory is unchanged. |
| Batch.FixStaysPut | lib/__init__.py:217-314 | `fix` adds at least one command to the log, and all of them run in the starting directory. |
| Batch.FixEntryStaysPut | lib/__init__.py:334-337 | The same holds for `fix` on any entry, from any log. |
| Batch.SweepOutcomes | lib/__init__.py:334-355 | One outcome per entry, in input order, each about that entry's `dir`. |
| Batch.SweepStaysPut | lib/__init__.py:334-355 | If each `fix` keeps to one directory, so does the whole batch. |
| Batch.SweepPrefix | lib/__init__.py:334-355 | The outcomes of the first i entries are the first outcomes of the batch. |
| Batch.SweepRecord | lib/__init__.py:336-353 | The i-th outcome is the record of `fix` on the i-th entry, run on the log the earlier entries left. |
| Batch.BatchShape | lib/__init__.py:334-355 | `main`'s batch has one outcome per entry, about its `dir`. The log only grows, and every command runs in the starting directory. |
| Batch.BatchRecord | lib/__init__.py:336-353 | Outcome i is a success record exactly when `fix` on entry i returned. A success record holds the status, `dir` and `source`. Otherwise it is a failure record with the fault's message and status. |
| MergeFailed.Visit | merge_failed.py:70-89 | One record: a missing directory raises `TypeError`. Otherwise change into it and run `git mergetool`. A fault becomes a conflicts record. A pass with a missing `source` raises `KeyError`, and with `source` present it becomes a merged record. |
| MergeFailed.PassSpec | merge_failed.py:69-91 | The records visited in order until the first uncaught exception. |
| MergeFailed.ResolveConflicts | merge_failed.py:67-91 | The new directory and log are those of `PassSpec`. The result is the two lists, or the exception that ended the pass. |
| MergeFailed.PassStep | merge_failed.py:69-91 | One more record does nothing after a crash, and is one visit otherwise. |
| MergeFailed.CrashPersists | merge_failed.py:69-73 | After an uncaught exception, later records cause no command, no record and no directory change. |
| MergeFailed.PassPrefix | merge_failed.py:67-91 | In a pass without a crash, the records and commands of the first i records are the first ones of the pass. |
| MergeFailed.PassCounts | merge_failed.py:67-91 | Without a crash, every record gets exactly one outcome and one command. |
| MergeFailed.PassRecord | merge_failed.py:70-89 | The record's directory existed, and the process changed into it before its one `git mergetool`. The outcome is a conflicts record exactly when that command faulted. Otherwise it is a merged record with the status and the record's `source`. |
| MergeFailed.PassCrash | merge_failed.py:70-89 | A crashed pass crashed on one record, after the earlier ones went through, and did nothing afterwards. It is a `TypeError` exactly when that directory was missing, and then no `mergetool` ran. Otherwise `mergetool` passed and `source` was missing. |

## Left out

- `run` (lib/__init__.py:56-80), i.e. spawning the process, is an oracle.
  - Its answers are modelled as strings, not bytes.
  - So the merge message holds the hash text rather than the `b'...'` form that formatting bytes would give.
- `os.path.isdir`, `os.path.abspath` and `os.chdir` are oracles over the current directory.
  - The only property assumed is that `abspath` returns a path starting with the separator.
  - The filesystem is assumed not to change during a run.
- The tuple rendering of `name` does not escape quotes or backslashes inside the name.
- Printing and every `verbose` branch are left out. They only write to standard output.
- `GitException.__init__` never assigns `self.message`, so reading `e.message` would itself raise. The model takes the fault's message to be the `error_message` argument, as the class's documentation describes.
- Reading the configuration and the failures file (JSON), and appending the lists to log files, are left out. This covers lib/__init__.py:331-332 and 357-365, and merge_failed.py:59-65 and 93-101.
  - The log writing reads `failed`/`fixed` keys that the consolidated configuration never has.
  - merge_failed.py calls `.get` on the loaded list.
  - These are file-handling glue outside the loops.
- Some `KeyError`s are not modelled: those from a missing required key (`dir`, `source`, the six default names, `repository_dir`). Those keys are fields of the entry types. Only `source`, which failure records never carry, is optional.
- JSON `null` or non-boolean values for `no_push`, `keep_fix_branch` and `verbose` are not modelled. The flags are optional booleans, and only `true` counts as truthy.
- fix_logs.py, the argparse block of merge_failed.py and its import of `fix_merge`, which lib does not define, are not part of this model.
- Concurrency and timing do not arise: the program is sequential.
