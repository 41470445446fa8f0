/**
 * `consolidate_repo_configs` (lib/__init__.py): one repository's entry of the
 * configuration merged over the batch defaults.
 */
module Config {
  import opened Wrappers
  import opened Paths

  /**
   * The keys `consolidate_repo_configs` reads from its `defaults` argument.
   * The six names are indexed (a missing one is a `KeyError`, so they are
   * always present); the three flags are read with `.get` and may be absent.
   */
  datatype Defaults = Defaults(
    originBranch: string,
    originRemote: string,
    sourceBranch: string,
    sourceRemote: string,
    fixBranch: string,
    fixCommit: string,
    noPush: Option<bool>,
    keepFixBranch: Option<bool>,
    verbose: Option<bool>)

  /** One element of `repos`: `dir` and `source` are indexed, everything else optional. */
  datatype RepoEntry = RepoEntry(
    dir: string,
    source: string,
    name: Option<string>,
    originBranch: Option<string>,
    originRemote: Option<string>,
    sourceBranch: Option<string>,
    sourceRemote: Option<string>,
    fixBranch: Option<string>,
    fixCommit: Option<string>,
    noPush: Option<bool>,
    keepFixBranch: Option<bool>,
    verbose: Option<bool>)

  /** A Python tuple of one string, `(item,)`. */
  datatype OneTuple = OneTuple(item: string) {
    /** How `str.format` renders it (quotes and escapes inside `item` are not modelled). */
    function Text(): string {
      "('" + item + "',)"
    }
  }

  /** The dictionary `consolidate_repo_configs` returns. */
  datatype RepoConfig = RepoConfig(
    dir: string,
    source: string,
    name: OneTuple,
    originBranch: string,
    originRemote: string,
    sourceBranch: string,
    sourceRemote: string,
    fixBranch: string,
    fixCommit: string,
    noPush: Option<bool>,
    keepFixBranch: Option<bool>,
    verbose: bool)

  /** Python truthiness of an optional flag (an absent key reads as `None`). */
  predicate Truthy(flag: Option<bool>) {
    flag == Some(true)
  }

  /** `d.get(key, fallback)`. */
  function Get<T>(own: Option<T>, fallback: T): T {
    if own.Some? then own.value else fallback
  }

  /** The value a field resolves to: the repository's own if given, else the fallback. */
  predicate Resolves<T(==)>(own: Option<T>, fallback: T, v: T) {
    match own
    case Some(x) => v == x
    case None => v == fallback
  }

  /**
   * `consolidate_repo_configs(defaults, repo)`, where `absDir` is
   * `os.path.abspath(repo['dir'])` in the process's working directory.
   */
  function Consolidate(defaults: Defaults, repo: RepoEntry, absDir: string): (r: RepoConfig)
    requires Sep in absDir
    ensures r.dir == repo.dir && r.source == repo.source
    ensures Resolves(repo.originBranch, defaults.originBranch, r.originBranch)
    ensures Resolves(repo.originRemote, defaults.originRemote, r.originRemote)
    ensures Resolves(repo.sourceBranch, defaults.sourceBranch, r.sourceBranch)
    ensures Resolves(repo.sourceRemote, defaults.sourceRemote, r.sourceRemote)
    ensures Resolves(repo.fixBranch, defaults.fixBranch, r.fixBranch)
    ensures Resolves(repo.fixCommit, defaults.fixCommit, r.fixCommit)
    ensures r.noPush == (if repo.noPush.Some? then repo.noPush else defaults.noPush)
    ensures r.keepFixBranch == (if repo.keepFixBranch.Some? then repo.keepFixBranch else defaults.keepFixBranch)
    ensures r.verbose <==> defaults.verbose == Some(true)
    ensures Resolves(repo.originBranch, ParentDirectoryName(absDir), r.name.item)
  {
    RepoConfig(
      dir := repo.dir,
      source := repo.source,
      name := OneTuple(Get(repo.originBranch, ParentDirectoryName(absDir))),
      originBranch := Get(repo.originBranch, defaults.originBranch),
      originRemote := Get(repo.originRemote, defaults.originRemote),
      sourceBranch := Get(repo.sourceBranch, defaults.sourceBranch),
      sourceRemote := Get(repo.sourceRemote, defaults.sourceRemote),
      fixBranch := Get(repo.fixBranch, defaults.fixBranch),
      fixCommit := Get(repo.fixCommit, defaults.fixCommit),
      noPush := if repo.noPush.Some? then repo.noPush else defaults.noPush,
      keepFixBranch := if repo.keepFixBranch.Some? then repo.keepFixBranch else defaults.keepFixBranch,
      verbose := Get(defaults.verbose, false))
  }

  /**
   * Without an `origin_branch` key the name is the directory that holds the
   * repository's directory, whatever the `name` key says.
   */
  lemma ConsolidateNameFromDirectory(defaults: Defaults, repo: RepoEntry, a: string, b: string, c: string)
    requires repo.originBranch.None?
    requires Sep !in b && Sep !in c
    ensures Sep in a + [Sep] + b + [Sep] + c
    ensures Consolidate(defaults, repo, a + [Sep] + b + [Sep] + c).name == OneTuple(b)
  {
    ParentOfNested(a, b, c);
  }

  /**
   * The same for a repository directly under the root: the name is the text
   * in front of the only separator, `('',)` for `/c`.
   */
  lemma ConsolidateNameAtTopLevel(defaults: Defaults, repo: RepoEntry, b: string, c: string)
    requires repo.originBranch.None?
    requires Sep !in b && Sep !in c
    ensures Sep in b + [Sep] + c
    ensures Consolidate(defaults, repo, b + [Sep] + c).name == OneTuple(b)
  {
    ParentOfTopLevel(b, c);
  }

  /**
   * Defaults the repository overrides have no influence: two sets of defaults
   * that agree on the fields the entry leaves open resolve alike.
   */
  lemma ConsolidateOverridesWin(d1: Defaults, d2: Defaults, repo: RepoEntry, absDir: string)
    requires Sep in absDir
    requires repo.originBranch.None? ==> d1.originBranch == d2.originBranch
    requires repo.originRemote.None? ==> d1.originRemote == d2.originRemote
    requires repo.sourceBranch.None? ==> d1.sourceBranch == d2.sourceBranch
    requires repo.sourceRemote.None? ==> d1.sourceRemote == d2.sourceRemote
    requires repo.fixBranch.None? ==> d1.fixBranch == d2.fixBranch
    requires repo.fixCommit.None? ==> d1.fixCommit == d2.fixCommit
    requires repo.noPush.None? ==> d1.noPush == d2.noPush
    requires repo.keepFixBranch.None? ==> d1.keepFixBranch == d2.keepFixBranch
    requires d1.verbose == d2.verbose
    ensures Consolidate(d1, repo, absDir) == Consolidate(d2, repo, absDir)
  {
  }

  /** The entry's own `verbose` and `name` keys are never read. */
  lemma ConsolidateIgnoresVerboseAndName(defaults: Defaults, repo: RepoEntry, absDir: string,
                                         verbose: Option<bool>, name: Option<string>)
    requires Sep in absDir
    ensures Consolidate(defaults, repo.(verbose := verbose, name := name), absDir)
         == Consolidate(defaults, repo, absDir)
  {
  }
}
