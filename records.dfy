/**
 * The two kinds of record both loops append (lib/__init__.py `main` and
 * merge_failed.py `main`): a success record is the command's status
 * dictionary updated in place with where the repository is and where its
 * source came from; a failure record copies the fault's message and status.
 * An outcome is one record of either kind, and a run of outcomes splits into
 * the two lists the loops keep.
 */
module Records {
  import opened Git

  /** `status` after `status.update({'repository_dir': ..., 'repository_source': ...})`. */
  datatype DoneRecord = DoneRecord(status: Status, repositoryDir: string, repositorySource: string)

  /** `{'repository_dir', 'message', 'code', 'err', 'out'}` built from a `GitException`. */
  datatype FaultRecord = FaultRecord(repositoryDir: string, message: string, status: Status)

  /** The record one repository contributes, to one list or the other. */
  datatype Outcome = Done(done: DoneRecord) | Faulted(fault: FaultRecord)

  /** The failure record of a raised `GitException`. */
  function FaultOf(repositoryDir: string, e: GitException): FaultRecord {
    FaultRecord(repositoryDir, e.message, e.status)
  }

  /** The repository an outcome is about. */
  function DirOf(o: Outcome): string {
    match o
    case Done(d) => d.repositoryDir
    case Faulted(f) => f.repositoryDir
  }

  /** The success list: the success records, in the order they were appended. */
  function DoneOnes(os: seq<Outcome>): seq<DoneRecord>
    decreases |os|
  {
    if os == [] then []
    else
      var rest := DoneOnes(os[..|os| - 1]);
      match os[|os| - 1]
      case Done(d) => rest + [d]
      case Faulted(_) => rest
  }

  /** The failure list: the failure records, in the order they were appended. */
  function FaultedOnes(os: seq<Outcome>): seq<FaultRecord>
    decreases |os|
  {
    if os == [] then []
    else
      var rest := FaultedOnes(os[..|os| - 1]);
      match os[|os| - 1]
      case Done(_) => rest
      case Faulted(f) => rest + [f]
  }

  /** How many success records come before position `i`. */
  function DoneRank(os: seq<Outcome>, i: nat): nat
    requires i <= |os|
  {
    |DoneOnes(os[..i])|
  }

  /** How many failure records come before position `i`. */
  function FaultRank(os: seq<Outcome>, i: nat): nat
    requires i <= |os|
  {
    |FaultedOnes(os[..i])|
  }

  /** The lists of a prefix are prefixes of the lists of the whole run. */
  lemma {:induction false} PrefixLists(os: seq<Outcome>, i: nat)
    requires i <= |os|
    ensures DoneOnes(os[..i]) <= DoneOnes(os)
    ensures FaultedOnes(os[..i]) <= FaultedOnes(os)
    decreases |os| - i
  {
    if i < |os| {
      PrefixLists(os, i + 1);
      assert os[..i + 1][..i] == os[..i];
    } else {
      assert os[..i] == os;
    }
  }

  /** Every outcome lands in one list or the other: together they are as long as the run. */
  lemma {:induction false} PartitionSizes(os: seq<Outcome>)
    ensures |DoneOnes(os)| + |FaultedOnes(os)| == |os|
    decreases |os|
  {
    if os != [] {
      PartitionSizes(os[..|os| - 1]);
    }
  }

  /**
   * The i-th outcome sits in its own list, at the position given by the
   * outcomes of its kind before it.
   */
  lemma Placement(os: seq<Outcome>, i: nat)
    requires i < |os|
    ensures os[i].Done? ==>
      DoneRank(os, i) < |DoneOnes(os)| && DoneOnes(os)[DoneRank(os, i)] == os[i].done
    ensures os[i].Faulted? ==>
      FaultRank(os, i) < |FaultedOnes(os)| && FaultedOnes(os)[FaultRank(os, i)] == os[i].fault
  {
    assert os[..i + 1][..i] == os[..i];
    PrefixLists(os, i + 1);
  }

  /**
   * Both lists keep the input order: a later outcome of the same kind sits
   * further along its list.
   */
  lemma KeepsOrder(os: seq<Outcome>, i: nat, j: nat)
    requires i < j < |os|
    ensures os[i].Done? ==> DoneRank(os, i) < DoneRank(os, j)
    ensures os[i].Faulted? ==> FaultRank(os, i) < FaultRank(os, j)
  {
    RankStep(os, i);
    RankGrows(os, i + 1, j);
  }

  /** One step of the ranks: the outcome at `i` counts towards its own kind only. */
  lemma RankStep(os: seq<Outcome>, i: nat)
    requires i < |os|
    ensures DoneRank(os, i + 1) == DoneRank(os, i) + (if os[i].Done? then 1 else 0)
    ensures FaultRank(os, i + 1) == FaultRank(os, i) + (if os[i].Faulted? then 1 else 0)
  {
    assert os[..i + 1][..i] == os[..i];
  }

  /** Ranks never decrease along the run. */
  lemma {:induction false} RankGrows(os: seq<Outcome>, i: nat, j: nat)
    requires i <= j <= |os|
    ensures DoneRank(os, i) <= DoneRank(os, j) && FaultRank(os, i) <= FaultRank(os, j)
    decreases j - i
  {
    if i < j {
      RankStep(os, i);
      RankGrows(os, i + 1, j);
    }
  }
}
