/**
 * The synchronizer: class `Sync` walks a source and a target directory
 * together, sorts every difference into five lists, and then replays those
 * lists against the target with copies and deletions.
 */
module Sync {
  import opened Wrappers
  import opened FileSystem
  import opened DirCompare

  /** A `FILE` record: a name and the two parent directories it was found under. */
  datatype Entry = Entry(name: string, sourcePath: Path, targetPath: Path)

  /** Which of the five lists an entry belongs to. */
  datatype Kind = Modified | SourceFile | TargetFile | SourceDir | TargetDir

  /** The five list fields of a `Sync` object, in their declaration order. */
  datatype Lists = Lists(
    diffFilesList: seq<Entry>,
    fileInSource: seq<Entry>,
    fileInTarget: seq<Entry>,
    dirInSource: seq<Entry>,
    dirInTarget: seq<Entry>)
  {
    function Of(k: Kind): seq<Entry>
    {
      match k
      case Modified => diffFilesList
      case SourceFile => fileInSource
      case TargetFile => fileInTarget
      case SourceDir => dirInSource
      case TargetDir => dirInTarget
    }

    /** Each list extended by the matching list of `other`. */
    function Append(other: Lists): (r: Lists)
      ensures forall k :: r.Of(k) == Of(k) + other.Of(k)
    {
      Lists(diffFilesList + other.diffFilesList, fileInSource + other.fileInSource,
            fileInTarget + other.fileInTarget, dirInSource + other.dirInSource,
            dirInTarget + other.dirInTarget)
    }

    predicate IsEmpty()
    {
      diffFilesList == [] && fileInSource == [] && fileInTarget == [] && dirInSource == [] && dirInTarget == []
    }
  }

  const NoLists := Lists([], [], [], [], [])

  /** One record per name, all found under the two directories of `d`. */
  function Records(names: seq<string>, d: DirCmp): (r: seq<Entry>)
    ensures |r| == |names|
    ensures forall i | 0 <= i < |r| :: r[i] == Entry(names[i], d.left, d.right)
  {
    seq(|names|, i requires 0 <= i < |names| => Entry(names[i], d.left, d.right))
  }

  lemma AppendAssoc(a: Lists, b: Lists, c: Lists)
    ensures a.Append(b).Append(c) == a.Append(b.Append(c))
  {
  }

  lemma RecordsSnoc(names: seq<string>, n: string, d: DirCmp)
    ensures Records(names + [n], d) == Records(names, d) + [Entry(n, d.left, d.right)]
  {
  }

  /** Whether `n` is a regular file in the listing `m`. */
  predicate IsFileIn(m: map<string, Node>, n: string)
  {
    n in m && m[n].File?
  }

  /** The names that are regular files in `m` (for `files`) or are not (for `!files`), in order. */
  function ByType(names: seq<string>, m: map<string, Node>, files: bool): (r: seq<string>)
    ensures forall n :: n in r <==> n in names && IsFileIn(m, n) == files
  {
    Filter(names, n => IsFileIn(m, n) == files)
  }

  lemma ByTypeSnoc(names: seq<string>, n: string, m: map<string, Node>, files: bool)
    ensures ByType(names + [n], m, files) == ByType(names, m, files) + (if IsFileIn(m, n) == files then [n] else [])
  {
    FilterSnoc(names, n, x => IsFileIn(m, x) == files);
  }

  /** One more name joins exactly one of the two classified lists. */
  lemma ClassifyStep(done: seq<string>, n: string, m: map<string, Node>, d: DirCmp)
    ensures IsFileIn(m, n) ==> Records(ByType(done + [n], m, true), d) == Records(ByType(done, m, true), d) + [Entry(n, d.left, d.right)]
    ensures IsFileIn(m, n) ==> Records(ByType(done + [n], m, false), d) == Records(ByType(done, m, false), d)
    ensures !IsFileIn(m, n) ==> Records(ByType(done + [n], m, true), d) == Records(ByType(done, m, true), d)
    ensures !IsFileIn(m, n) ==> Records(ByType(done + [n], m, false), d) == Records(ByType(done, m, false), d) + [Entry(n, d.left, d.right)]
  {
    ByTypeSnoc(done, n, m, true);
    ByTypeSnoc(done, n, m, false);
    RecordsSnoc(ByType(done, m, true), n, d);
    RecordsSnoc(ByType(done, m, false), n, d);
  }

  /** What one call of `_diff_files_recursion` appends before it recurses. */
  function Level(d: DirCmp): Lists
  {
    Lists(
      Records(DiffFiles(d), d),
      Records(ByType(LeftOnly(d), d.leftEntries, true), d),
      Records(ByType(RightOnly(d), d.rightEntries, true), d),
      Records(ByType(LeftOnly(d), d.leftEntries, false), d),
      Records(ByType(RightOnly(d), d.rightEntries, false), d))
  }

  /** Everything `_diff_files_recursion(d)` appends: this level, then each common subdirectory in turn. */
  function Walk(d: DirCmp): Lists
    decreases Dir(d.leftEntries), 1, 0
  {
    Level(d).Append(WalkSubs(d, CommonDirs(d)))
  }

  /** The walks of the common subdirectories `names`, one after another. */
  function WalkSubs(d: DirCmp, names: seq<string>): Lists
    requires forall n | n in names :: BothDirs(d, n)
    decreases Dir(d.leftEntries), 0, |names|
  {
    if names == [] then NoLists
    else WalkSubs(d, names[..|names| - 1]).Append(Walk(Sub(d, names[|names| - 1])))
  }

  /** One library call made by `Overwrite`. */
  datatype Action =
    | CopyFile(src: Path, dst: Path)    // shutil.copy
    | CopyDir(src: Path, dst: Path)     // shutil.copytree
    | RemoveFile(path: Path)            // os.remove
    | RemoveDir(path: Path)             // shutil.rmtree

  function Step(disk: Disk, a: Action): Result<Disk, FsError>
  {
    match a
    case CopyFile(s, t) => Copy(disk, s, t)
    case CopyDir(s, t) => CopyTree(disk, s, t)
    case RemoveFile(p) => Remove(disk, p)
    case RemoveDir(p) => RemoveTree(disk, p)
  }

  /** How running calls one after another ends: all done, or stopped by the exception of call `at`. */
  datatype Run = Done(disk: Disk) | Aborted(disk: Disk, at: nat, error: FsError)

  /** Runs the calls in order; nothing catches an exception, so the first one ends the run. */
  function Apply(disk: Disk, acts: seq<Action>): (r: Run)
    ensures r.Aborted? ==> r.at < |acts|
    decreases |acts|
  {
    if acts == [] then Done(disk)
    else match Step(disk, acts[0])
      case Err(e) => Aborted(disk, 0, e)
      case Ok(next) =>
        var r := Apply(next, acts[1..]);
        if r.Aborted? then r.(at := r.at + 1) else r
  }

  function Raised(r: Run): Option<FsError>
  {
    if r.Aborted? then Some(r.error) else None
  }

  /** The call `Overwrite` makes for an entry of list `k`; `root` is the target root. */
  function ActionFor(k: Kind, e: Entry, root: Path): Action
  {
    match k
    case Modified => CopyFile(e.sourcePath + [e.name], root)
    case SourceFile => CopyFile(e.sourcePath + [e.name], e.targetPath)
    case SourceDir => CopyDir(e.sourcePath + [e.name], e.targetPath + [e.name])
    case TargetFile => RemoveFile(e.targetPath + [e.name])
    case TargetDir => RemoveDir(e.targetPath + [e.name])
  }

  function Actions(k: Kind, es: seq<Entry>, root: Path): (r: seq<Action>)
    ensures |r| == |es|
    ensures forall i | 0 <= i < |es| :: r[i] == ActionFor(k, es[i], root)
  {
    seq(|es|, i requires 0 <= i < |es| => ActionFor(k, es[i], root))
  }

  /** Every call `Overwrite` would make, in the order it makes them. */
  function Plan(l: Lists, root: Path): seq<Action>
  {
    Actions(Modified, l.diffFilesList, root) + Actions(SourceFile, l.fileInSource, root)
      + Actions(SourceDir, l.dirInSource, root) + Actions(TargetFile, l.fileInTarget, root)
      + Actions(TargetDir, l.dirInTarget, root)
  }

  /** The filesystem, the five lists and the exception after `Overwrite`. */
  datatype Outcome = Outcome(disk: Disk, lists: Lists, raised: Option<FsError>)

  function Clear(l: Lists, k: Kind): (r: Lists)
    ensures r.Of(k) == [] && forall j | j != k :: r.Of(j) == l.Of(j)
  {
    match k
    case Modified => l.(diffFilesList := [])
    case SourceFile => l.(fileInSource := [])
    case TargetFile => l.(fileInTarget := [])
    case SourceDir => l.(dirInSource := [])
    case TargetDir => l.(dirInTarget := [])
  }

  /**
   * One block of `Overwrite`: unless an exception is already on its way,
   * replay list `k` and then clear it; an exception leaves the list as it was.
   */
  function ReplayList(o: Outcome, k: Kind, root: Path): Outcome
  {
    if o.raised.Some? then o
    else
      var r := Apply(o.disk, Actions(k, o.lists.Of(k), root));
      if r.Aborted? then Outcome(r.disk, o.lists, Some(r.error))
      else Outcome(r.disk, Clear(o.lists, k), None)
  }

  /** `Overwrite`: modified files, new files, new directories, then the deletions. */
  function Reconcile(disk: Disk, l: Lists, root: Path): Outcome
  {
    var o1 := ReplayList(Outcome(disk, l, None), Modified, root);
    var o2 := ReplayList(o1, SourceFile, root);
    var o3 := ReplayList(o2, SourceDir, root);
    var o4 := ReplayList(o3, TargetFile, root);
    ReplayList(o4, TargetDir, root)
  }

  lemma {:induction false} ApplySnoc(disk: Disk, acts: seq<Action>, a: Action)
    ensures Apply(disk, acts + [a]) ==
      match Apply(disk, acts)
      case Aborted(_, _, _) => Apply(disk, acts)
      case Done(d) => match Step(d, a) case Ok(next) => Done(next) case Err(e) => Aborted(d, |acts|, e)
    decreases |acts|
  {
    if acts == [] {
      assert acts + [a] == [a];
    } else {
      assert (acts + [a])[1..] == acts[1..] + [a];
      if Step(disk, acts[0]).Ok? {
        ApplySnoc(Step(disk, acts[0]).value, acts[1..], a);
      }
    }
  }

  class Sync {
    const sourcePath: Path
    const targetPath: Path
    /** The filesystem this object reads and changes. */
    var disk: Disk
    var diffFilesList: seq<Entry>
    var fileInSource: seq<Entry>
    var fileInTarget: seq<Entry>
    var dirInSource: seq<Entry>
    var dirInTarget: seq<Entry>

    function Pending(): Lists
      reads this
    {
      Lists(diffFilesList, fileInSource, fileInTarget, dirInSource, dirInTarget)
    }

    /** `Sync(source_path, target_path)`: all five lists start empty. */
    constructor (disk: Disk, sourcePath: Path, targetPath: Path)
      ensures this.disk == disk && this.sourcePath == sourcePath && this.targetPath == targetPath
      ensures Pending() == NoLists
    {
      this.disk := disk;
      this.sourcePath := sourcePath;
      this.targetPath := targetPath;
      diffFilesList, fileInSource, fileInTarget, dirInSource, dirInTarget := [], [], [], [], [];
    }

    /** `diff_files`: compares the two roots; listing a root that is not a directory raises. */
    method DiffFiles() returns (raised: Option<FsError>)
      modifies this
      ensures disk == old(disk)
      ensures match Open(disk, sourcePath, targetPath)
        case Ok(d) => raised == None && Pending() == old(Pending()).Append(Walk(d))
        case Err(e) => raised == Some(e) && Pending() == old(Pending())
    {
      var dcmp := Open(disk, sourcePath, targetPath);
      if dcmp.Err? {
        return Some(dcmp.error);
      }
      DiffFilesRecursion(dcmp.value);
      return None;
    }

    /** `_diff_files_recursion(dcmp)`: this level's three loops, then one call per common subdirectory. */
    method DiffFilesRecursion(d: DirCmp)
      requires ListedFrom(disk, d)
      modifies this
      ensures disk == old(disk)
      ensures Pending() == old(Pending()).Append(Walk(d))
      decreases Dir(d.leftEntries), 1
    {
      AddDiffFiles(d, DirCompare.DiffFiles(d));
      AddLeftOnly(d, LeftOnly(d));
      AddRightOnly(d, RightOnly(d));
      ghost var mid := Pending();
      assert mid == old(Pending()).Append(Level(d));
      RecurseSubdirs(d, CommonDirs(d));
      AppendAssoc(old(Pending()), Level(d), WalkSubs(d, CommonDirs(d)));
    }

    /** The closing loop of `_diff_files_recursion`: recurse into each of `subdirs` in turn. */
    method RecurseSubdirs(d: DirCmp, subdirs: seq<string>)
      requires ListedFrom(disk, d)
      requires forall n | n in subdirs :: BothDirs(d, n)
      modifies this
      ensures disk == old(disk)
      ensures Pending() == old(Pending()).Append(WalkSubs(d, subdirs))
      decreases Dir(d.leftEntries), 0
    {
      for i := 0 to |subdirs|
        invariant Pending() == old(Pending()).Append(WalkSubs(d, subdirs[..i]))
        invariant disk == old(disk)
      {
        assert subdirs[..i + 1][..i] == subdirs[..i];
        SubListedFrom(disk, d, subdirs[i]);
        ghost var before := Pending();
        DiffFilesRecursion(Sub(d, subdirs[i]));
        AppendAssoc(old(Pending()), WalkSubs(d, subdirs[..i]), Walk(Sub(d, subdirs[i])));
      }
      assert subdirs[..|subdirs|] == subdirs;
    }

    /** The loop over `dcmp.diff_files`. */
    method AddDiffFiles(d: DirCmp, diff: seq<string>)
      modifies this`diffFilesList
      ensures diffFilesList == old(diffFilesList) + Records(diff, d)
    {
      for i := 0 to |diff|
        invariant diffFilesList == old(diffFilesList) + Records(diff[..i], d)
      {
        RecordsSnoc(diff[..i], diff[i], d);
        assert diff[..i + 1] == diff[..i] + [diff[i]];
        diffFilesList := diffFilesList + [Entry(diff[i], d.left, d.right)];
      }
      assert diff[..|diff|] == diff;
    }

    /** `os.path.isfile(dcmp.left + name)`, which agrees with the left listing. */
    method IsFileInLeft(d: DirCmp, name: string) returns (b: bool)
      requires ListedFrom(disk, d)
      ensures b == IsFileIn(d.leftEntries, name)
    {
      b := IsFileAt(disk, d.left + [name]);
      IsFileInListing(disk, d, name);
    }

    /** `os.path.isfile(dcmp.right + name)`, which agrees with the right listing. */
    method IsFileInRight(d: DirCmp, name: string) returns (b: bool)
      requires ListedFrom(disk, d)
      ensures b == IsFileIn(d.rightEntries, name)
    {
      b := IsFileAt(disk, d.right + [name]);
      IsFileInListing(disk, d, name);
    }

    /** The loop over `dcmp.left_only`: regular files to one list, everything else to the other. */
    method AddLeftOnly(d: DirCmp, leftOnly: seq<string>)
      requires ListedFrom(disk, d)
      modifies this`fileInSource, this`dirInSource
      ensures fileInSource == old(fileInSource) + Records(ByType(leftOnly, d.leftEntries, true), d)
      ensures dirInSource == old(dirInSource) + Records(ByType(leftOnly, d.leftEntries, false), d)
    {
      for i := 0 to |leftOnly|
        invariant fileInSource == old(fileInSource) + Records(ByType(leftOnly[..i], d.leftEntries, true), d)
        invariant dirInSource == old(dirInSource) + Records(ByType(leftOnly[..i], d.leftEntries, false), d)
      {
        var name := leftOnly[i];
        ghost var done := leftOnly[..i];
        assert leftOnly[..i + 1] == done + [name];
        var isFile := IsFileInLeft(d, name);
        ClassifyStep(done, name, d.leftEntries, d);
        if isFile {
          fileInSource := fileInSource + [Entry(name, d.left, d.right)];
        } else {
          dirInSource := dirInSource + [Entry(name, d.left, d.right)];
        }
      }
      assert leftOnly[..|leftOnly|] == leftOnly;
    }

    /** The loop over `dcmp.right_only`. */
    method AddRightOnly(d: DirCmp, rightOnly: seq<string>)
      requires ListedFrom(disk, d)
      modifies this`fileInTarget, this`dirInTarget
      ensures fileInTarget == old(fileInTarget) + Records(ByType(rightOnly, d.rightEntries, true), d)
      ensures dirInTarget == old(dirInTarget) + Records(ByType(rightOnly, d.rightEntries, false), d)
    {
      for i := 0 to |rightOnly|
        invariant fileInTarget == old(fileInTarget) + Records(ByType(rightOnly[..i], d.rightEntries, true), d)
        invariant dirInTarget == old(dirInTarget) + Records(ByType(rightOnly[..i], d.rightEntries, false), d)
      {
        var name := rightOnly[i];
        ghost var done := rightOnly[..i];
        assert rightOnly[..i + 1] == done + [name];
        var isFile := IsFileInRight(d, name);
        ClassifyStep(done, name, d.rightEntries, d);
        if isFile {
          fileInTarget := fileInTarget + [Entry(name, d.left, d.right)];
        } else {
          dirInTarget := dirInTarget + [Entry(name, d.left, d.right)];
        }
      }
      assert rightOnly[..|rightOnly|] == rightOnly;
    }

    /** Replays one list: the matching call for each entry, in list order, stopping at the first exception. */
    method Replay(k: Kind, entries: seq<Entry>) returns (raised: Option<FsError>)
      modifies this`disk
      ensures disk == Apply(old(disk), Actions(k, entries, targetPath)).disk
      ensures raised == Raised(Apply(old(disk), Actions(k, entries, targetPath)))
    {
      ghost var acts := Actions(k, entries, targetPath);
      for i := 0 to |entries|
        invariant Apply(old(disk), acts[..i]) == Done(disk)
      {
        assert acts[..i + 1] == acts[..i] + [acts[i]];
        ApplySnoc(old(disk), acts[..i], acts[i]);
        var r := Step(disk, ActionFor(k, entries[i], targetPath));
        if r.Err? {
          ApplyAbortedPrefix(old(disk), acts, i + 1);
          return Some(r.error);
        }
        disk := r.value;
      }
      assert acts[..|entries|] == acts;
      return None;
    }

    /** One block of `Overwrite`: replays list `k` if it is not empty, then clears it. */
    method ReplayAndClear(k: Kind) returns (raised: Option<FsError>)
      modifies this
      ensures Outcome(disk, Pending(), raised) == ReplayList(Outcome(old(disk), old(Pending()), None), k, targetPath)
    {
      var entries := Pending().Of(k);
      raised := None;
      if |entries| != 0 {
        raised := Replay(k, entries);
        if raised.Some? { return; }
        match k
        case Modified => diffFilesList := [];
        case SourceFile => fileInSource := [];
        case TargetFile => fileInTarget := [];
        case SourceDir => dirInSource := [];
        case TargetDir => dirInTarget := [];
      }
    }

    /** `Overwrite`: the five lists in a fixed order; an exception ends it. */
    method Overwrite() returns (raised: Option<FsError>)
      modifies this
      ensures Outcome(disk, Pending(), raised) == Reconcile(old(disk), old(Pending()), targetPath)
    {
      ghost var o0 := Outcome(disk, Pending(), None);
      raised := ReplayAndClear(Modified);
      if raised.Some? { return; }
      raised := ReplayAndClear(SourceFile);
      if raised.Some? { return; }
      raised := ReplayAndClear(SourceDir);
      if raised.Some? { return; }
      raised := ReplayAndClear(TargetFile);
      if raised.Some? { return; }
      raised := ReplayAndClear(TargetDir);
    }
  }

  /** A run that fails on call `i - 1` ends there, whatever comes after. */
  lemma {:induction false} ApplyAbortedPrefix(disk: Disk, acts: seq<Action>, i: nat)
    requires 0 < i <= |acts| && Apply(disk, acts[..i]).Aborted?
    ensures Apply(disk, acts) == Apply(disk, acts[..i])
    decreases |acts|
  {
    if acts[..i] == acts {
    } else {
      assert acts[..|acts| - 1][..i] == acts[..i];
      ApplyAbortedPrefix(disk, acts[..|acts| - 1], i);
      assert acts == acts[..|acts| - 1] + [acts[|acts| - 1]];
      ApplySnoc(disk, acts[..|acts| - 1], acts[|acts| - 1]);
    }
  }
}
