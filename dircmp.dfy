/**
 * The part of `filecmp.dircmp` the synchronizer reads. Each listing is
 * sorted; `common`, `left_only` and `common_dirs` keep the order of the
 * left listing and `right_only` that of the right one. A name that is a
 * file on one side and a directory on the other lands in `common_funny`,
 * which the synchronizer never reads, so it does not appear here.
 */
module DirCompare {
  import opened Wrappers
  import opened FileSystem
  import Names

  /** A `dircmp(left, right)` object: both paths and both directory listings. */
  datatype DirCmp = DirCmp(left: Path, right: Path, leftEntries: map<string, Node>, rightEntries: map<string, Node>)

  /** The names of `xs` that satisfy `keep`, in the order of `xs`. */
  function Filter(xs: seq<string>, keep: string -> bool): (r: seq<string>)
    ensures forall x :: x in r <==> x in xs && keep(x)
  {
    if xs == [] then []
    else if keep(xs[0]) then [xs[0]] + Filter(xs[1..], keep)
    else Filter(xs[1..], keep)
  }

  /** Filtering keeps a sorted listing sorted. */
  lemma {:induction false} FilterIncreasing(xs: seq<string>, keep: string -> bool)
    requires Names.Increasing(xs)
    ensures Names.Increasing(Filter(xs, keep))
  {
    if xs != [] {
      var rest := Filter(xs[1..], keep);
      assert Names.Increasing(xs[1..]);
      FilterIncreasing(xs[1..], keep);
      if keep(xs[0]) {
        forall i, j | 0 <= i < j < |[xs[0]] + rest|
          ensures Names.Below(([xs[0]] + rest)[i], ([xs[0]] + rest)[j]) && ([xs[0]] + rest)[i] != ([xs[0]] + rest)[j]
        {
          if i == 0 {
            assert rest[j - 1] in xs[1..];
            var k :| 0 <= k < |xs[1..]| && xs[1..][k] == rest[j - 1];
            assert xs[k + 1] == rest[j - 1];
          }
        }
      }
    }
  }

  lemma {:induction false} FilterSnoc(xs: seq<string>, x: string, keep: string -> bool)
    ensures Filter(xs + [x], keep) == Filter(xs, keep) + (if keep(x) then [x] else [])
  {
    if xs != [] {
      assert (xs + [x])[1..] == xs[1..] + [x];
      FilterSnoc(xs[1..], x, keep);
    }
  }

  /** `left_list`: the sorted names of the left directory. */
  function LeftList(d: DirCmp): (r: seq<string>)
    ensures forall n :: n in r <==> n in d.leftEntries
  {
    Names.Sorted(d.leftEntries.Keys)
  }

  /** `right_list`: the sorted names of the right directory. */
  function RightList(d: DirCmp): (r: seq<string>)
    ensures forall n :: n in r <==> n in d.rightEntries
  {
    Names.Sorted(d.rightEntries.Keys)
  }

  /** `left_only`: names listed on the left and not on the right. */
  function LeftOnly(d: DirCmp): (r: seq<string>)
    ensures forall n :: n in r <==> n in d.leftEntries && n !in d.rightEntries
  {
    Filter(LeftList(d), n => n !in d.rightEntries)
  }

  /** `right_only`: names listed on the right and not on the left. */
  function RightOnly(d: DirCmp): (r: seq<string>)
    ensures forall n :: n in r <==> n in d.rightEntries && n !in d.leftEntries
  {
    Filter(RightList(d), n => n !in d.leftEntries)
  }

  /** `common`: names listed on both sides. */
  function Common(d: DirCmp): (r: seq<string>)
    ensures forall n :: n in r <==> n in d.leftEntries && n in d.rightEntries
  {
    Filter(LeftList(d), n => n in d.rightEntries)
  }

  predicate BothDirs(d: DirCmp, n: string)
  {
    n in d.leftEntries && n in d.rightEntries && d.leftEntries[n].Dir? && d.rightEntries[n].Dir?
  }

  predicate BothFiles(d: DirCmp, n: string)
  {
    n in d.leftEntries && n in d.rightEntries && d.leftEntries[n].File? && d.rightEntries[n].File?
  }

  /** `common_dirs`: common names that are directories on both sides. */
  function CommonDirs(d: DirCmp): (r: seq<string>)
    ensures forall n :: n in r <==> BothDirs(d, n)
  {
    Filter(Common(d), n => BothDirs(d, n))
  }

  /** `common_files`: common names that are regular files on both sides. */
  function CommonFiles(d: DirCmp): (r: seq<string>)
    ensures forall n :: n in r <==> BothFiles(d, n)
  {
    Filter(Common(d), n => BothFiles(d, n))
  }

  predicate Differ(d: DirCmp, n: string)
  {
    BothFiles(d, n) && d.leftEntries[n].content != d.rightEntries[n].content
  }

  /** `diff_files`: common files whose contents differ. */
  function DiffFiles(d: DirCmp): (r: seq<string>)
    ensures forall n :: n in r <==> Differ(d, n)
  {
    Filter(CommonFiles(d), n => Differ(d, n))
  }

  /** Every listing the synchronizer walks is sorted without repetitions. */
  lemma ListingsIncreasing(d: DirCmp)
    ensures Names.Increasing(LeftList(d)) && Names.Increasing(RightList(d))
    ensures Names.Increasing(LeftOnly(d)) && Names.Increasing(RightOnly(d)) && Names.Increasing(Common(d))
    ensures Names.Increasing(CommonDirs(d)) && Names.Increasing(CommonFiles(d)) && Names.Increasing(DiffFiles(d))
  {
    Names.SortedIncreasing(d.leftEntries.Keys);
    Names.SortedIncreasing(d.rightEntries.Keys);
    FilterIncreasing(LeftList(d), n => n !in d.rightEntries);
    FilterIncreasing(RightList(d), n => n !in d.leftEntries);
    FilterIncreasing(LeftList(d), n => n in d.rightEntries);
    FilterIncreasing(Common(d), n => BothDirs(d, n));
    FilterIncreasing(Common(d), n => BothFiles(d, n));
    FilterIncreasing(CommonFiles(d), n => Differ(d, n));
  }

  /** `subdirs[n]`: the comparison of the common subdirectory `n`. */
  function Sub(d: DirCmp, n: string): (s: DirCmp)
    requires BothDirs(d, n)
    ensures s.left == d.left + [n] && s.right == d.right + [n]
    ensures Dir(s.leftEntries) == d.leftEntries[n] && Dir(s.rightEntries) == d.rightEntries[n]
  {
    DirCmp(d.left + [n], d.right + [n], d.leftEntries[n].entries, d.rightEntries[n].entries)
  }

  /**
   * Lists both directories as `os.listdir` does when a `dircmp` attribute is
   * first read; that raises when a path is missing or is not a directory.
   */
  function Open(disk: Disk, left: Path, right: Path): (r: Result<DirCmp, FsError>)
    ensures r.Ok? <==> IsDirAt(disk, left) && IsDirAt(disk, right)
    ensures r.Ok? ==> r.value.left == left && r.value.right == right && ListedFrom(disk, r.value)
  {
    match At(disk, left)
    case None => Err(FileNotFound(left))
    case Some(File(_)) => Err(NotADirectory(left))
    case Some(Dir(lm)) =>
      match At(disk, right)
      case None => Err(FileNotFound(right))
      case Some(File(_)) => Err(NotADirectory(right))
      case Some(Dir(rm)) => Ok(DirCmp(left, right, lm, rm))
  }

  /** The comparison lists what `disk` holds at its two paths. */
  ghost predicate ListedFrom(disk: Disk, d: DirCmp)
  {
    At(disk, d.left) == Some(Dir(d.leftEntries)) && At(disk, d.right) == Some(Dir(d.rightEntries))
  }

  lemma SubListedFrom(disk: Disk, d: DirCmp, n: string)
    requires ListedFrom(disk, d) && BothDirs(d, n)
    ensures ListedFrom(disk, Sub(d, n))
  {
    FindAppend(Dir(disk), d.left, [n]);
    FindAppend(Dir(disk), d.right, [n]);
  }

  /** `os.path.isfile(left + name)` agrees with the left listing. */
  lemma IsFileInListing(disk: Disk, d: DirCmp, n: string)
    requires ListedFrom(disk, d)
    ensures IsFileAt(disk, d.left + [n]) <==> n in d.leftEntries && d.leftEntries[n].File?
    ensures IsFileAt(disk, d.right + [n]) <==> n in d.rightEntries && d.rightEntries[n].File?
  {
    FindAppend(Dir(disk), d.left, [n]);
    FindAppend(Dir(disk), d.right, [n]);
  }
}
