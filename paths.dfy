/**
 * `parent_directory_name` (lib/__init__.py): the second-to-last component of
 * an absolute path split on the path separator, with Python's `str.split`
 * semantics (empty components are kept).
 */
module Paths {

  /** `os.path.sep` on POSIX systems. */
  const Sep: char := '/'

  /** What `os.path.abspath` guarantees of its result. */
  predicate IsAbsolute(p: string) {
    |p| > 0 && p[0] == Sep
  }

  /** `s.split(Sep)`: the pieces between separators, empty pieces included. */
  function Split(s: string): (r: seq<string>)
    ensures |r| >= 1
    ensures forall i :: 0 <= i < |r| ==> Sep !in r[i]
    ensures (Sep in s) <==> |r| >= 2
    decreases |s|
  {
    if |s| == 0 then [""]
    else if s[0] == Sep then [""] + Split(s[1..])
    else
      var t := Split(s[1..]);
      assert s == [s[0]] + s[1..];
      [[s[0]] + t[0]] + t[1..]
  }

  /** `Sep.join(parts)`. */
  function Join(parts: seq<string>): string
    requires |parts| >= 1
    decreases |parts|
  {
    if |parts| == 1 then parts[0] else parts[0] + [Sep] + Join(parts[1..])
  }

  /** Joining the pieces back with the separator gives the original string. */
  lemma {:induction false} JoinSplit(s: string)
    ensures Join(Split(s)) == s
    decreases |s|
  {
    if |s| == 0 {
    } else if s[0] == Sep {
      var t := Split(s[1..]);
      JoinSplit(s[1..]);
      assert ([""] + t)[1..] == t;
      assert s == [Sep] + s[1..];
    } else {
      var t := Split(s[1..]);
      JoinSplit(s[1..]);
      var r := [[s[0]] + t[0]] + t[1..];
      assert r[1..] == t[1..];
      assert s == [s[0]] + s[1..];
    }
  }

  /** A string without separators is a single piece. */
  lemma {:induction false} SplitSepFree(a: string)
    requires Sep !in a
    ensures Split(a) == [a]
    decreases |a|
  {
    if |a| > 0 {
      assert a == [a[0]] + a[1..];
      SplitSepFree(a[1..]);
    }
  }

  /** Splitting at a separator splits the two sides independently. */
  lemma {:induction false} SplitAround(a: string, b: string)
    ensures Split(a + [Sep] + b) == Split(a) + Split(b)
    decreases |a|
  {
    var s := a + [Sep] + b;
    if |a| == 0 {
      assert s == [Sep] + b;
      assert s[1..] == b;
    } else {
      assert s[0] == a[0];
      assert s[1..] == a[1..] + [Sep] + b;
      SplitAround(a[1..], b);
    }
  }

  /** Splitting pieces that hold no separator, once joined, gives them back. */
  lemma {:induction false} SplitJoin(parts: seq<string>)
    requires |parts| >= 1
    requires forall i :: 0 <= i < |parts| ==> Sep !in parts[i]
    ensures Split(Join(parts)) == parts
    decreases |parts|
  {
    SplitSepFree(parts[0]);
    if |parts| > 1 {
      SplitJoin(parts[1..]);
      SplitAround(parts[0], Join(parts[1..]));
    }
  }

  /** `os.path.abspath(path).split(os.path.sep)[-2]`, given the absolute path. */
  function ParentDirectoryName(absPath: string): (r: string)
    requires Sep in absPath
    ensures Sep !in r
  {
    var parts := Split(absPath);
    parts[|parts| - 2]
  }

  /** With two or more separators, the name between the last two of them. */
  lemma {:induction false} ParentOfNested(a: string, b: string, c: string)
    requires Sep !in b && Sep !in c
    ensures Sep in a + [Sep] + b + [Sep] + c
    ensures ParentDirectoryName(a + [Sep] + b + [Sep] + c) == b
  {
    var p := a + [Sep] + b + [Sep] + c;
    assert p == a + [Sep] + (b + [Sep] + c);
    assert p[|a|] == Sep;
    SplitAround(a, b + [Sep] + c);
    SplitAround(b, c);
    SplitSepFree(b);
    SplitSepFree(c);
  }

  /** With exactly one separator, the text in front of it (empty for "/name"). */
  lemma {:induction false} ParentOfTopLevel(b: string, c: string)
    requires Sep !in b && Sep !in c
    ensures Sep in b + [Sep] + c
    ensures ParentDirectoryName(b + [Sep] + c) == b
  {
    assert (b + [Sep] + c)[|b|] == Sep;
    SplitAround(b, c);
    SplitSepFree(b);
    SplitSepFree(c);
  }
}
