/**
 * What `_diff_files_recursion` finds, stated against the filesystem rather
 * than against the traversal: which entry lands in which of the five lists,
 * which names land in none, and the order the entries come in.
 */
module WalkFacts {
  import opened Wrappers
  import opened FileSystem
  import opened DirCompare
  import opened Sync
  import Names

  /**
   * The list a name belongs to, from what the source and the target hold
   * under it. Identical files, a file facing a directory, two directories
   * and a name on neither side belong to no list.
   */
  function KindOf(s: Shape, t: Shape): Option<Kind>
  {
    match (s, t)
    case (FileShape(a), FileShape(b)) => if a != b then Some(Modified) else None
    case (FileShape(_), Absent) => Some(SourceFile)
    case (DirShape, Absent) => Some(SourceDir)
    case (Absent, FileShape(_)) => Some(TargetFile)
    case (Absent, DirShape) => Some(TargetDir)
    case _ => None
  }

  /**
   * `e` belongs in list `k` of the comparison of `src` with `tgt`: its two
   * parents are directories at the same relative path under the two roots,
   * and what the roots hold under its name there calls for list `k`.
   */
  ghost predicate Classified(disk: Disk, src: Path, tgt: Path, k: Kind, e: Entry)
  {
    src <= e.sourcePath
    && e.targetPath == tgt + e.sourcePath[|src|..]
    && IsDirAt(disk, e.sourcePath) && IsDirAt(disk, e.targetPath)
    && KindOf(ShapeOf(At(disk, e.sourcePath + [e.name])), ShapeOf(At(disk, e.targetPath + [e.name]))) == Some(k)
  }

  function Lookup(m: map<string, Node>, n: string): Option<Node>
  {
    if n in m then Some(m[n]) else None
  }

  /** The list one level of `d` files the name `n` under. */
  function LevelKind(d: DirCmp, n: string): Option<Kind>
  {
    KindOf(ShapeOf(Lookup(d.leftEntries, n)), ShapeOf(Lookup(d.rightEntries, n)))
  }

  lemma RecordsMember(names: seq<string>, d: DirCmp, e: Entry)
    ensures e in Records(names, d) <==> e.sourcePath == d.left && e.targetPath == d.right && e.name in names
  {
    if e.sourcePath == d.left && e.targetPath == d.right && e.name in names {
      var i :| 0 <= i < |names| && names[i] == e.name;
      assert Records(names, d)[i] == e;
    }
  }

  /** The names one level files under list `k`, in the order it files them. */
  function LevelNames(d: DirCmp, k: Kind): seq<string>
  {
    match k
    case Modified => DirCompare.DiffFiles(d)
    case SourceFile => ByType(LeftOnly(d), d.leftEntries, true)
    case SourceDir => ByType(LeftOnly(d), d.leftEntries, false)
    case TargetFile => ByType(RightOnly(d), d.rightEntries, true)
    case TargetDir => ByType(RightOnly(d), d.rightEntries, false)
  }

  lemma LevelRecords(d: DirCmp, k: Kind)
    ensures Level(d).Of(k) == Records(LevelNames(d, k), d)
  {
  }

  lemma ModifiedNames(d: DirCmp, n: string)
    ensures n in LevelNames(d, Modified) <==> LevelKind(d, n) == Some(Modified)
  {
  }

  lemma SourceOnlyNames(d: DirCmp, n: string)
    ensures n in LevelNames(d, SourceFile) <==> LevelKind(d, n) == Some(SourceFile)
    ensures n in LevelNames(d, SourceDir) <==> LevelKind(d, n) == Some(SourceDir)
  {
  }

  lemma TargetOnlyNames(d: DirCmp, n: string)
    ensures n in LevelNames(d, TargetFile) <==> LevelKind(d, n) == Some(TargetFile)
    ensures n in LevelNames(d, TargetDir) <==> LevelKind(d, n) == Some(TargetDir)
  {
  }

  /** One level files each name of the two listings under the list `LevelKind` names. */
  lemma LevelMember(d: DirCmp, k: Kind, e: Entry)
    ensures e in Level(d).Of(k) <==> e.sourcePath == d.left && e.targetPath == d.right && LevelKind(d, e.name) == Some(k)
  {
    LevelRecords(d, k);
    RecordsMember(LevelNames(d, k), d, e);
    ModifiedNames(d, e.name);
    SourceOnlyNames(d, e.name);
    TargetOnlyNames(d, e.name);
  }

  lemma {:induction false} WalkSubsMember(d: DirCmp, names: seq<string>, k: Kind, e: Entry)
    requires forall n | n in names :: BothDirs(d, n)
    ensures e in WalkSubs(d, names).Of(k) <==> exists n | n in names :: e in Walk(Sub(d, n)).Of(k)
    decreases |names|
  {
    if names != [] {
      var front, last := names[..|names| - 1], names[|names| - 1];
      assert names == front + [last];
      WalkSubsMember(d, front, k, e);
      if e in WalkSubs(d, names).Of(k) {
        if e !in WalkSubs(d, front).Of(k) {
          assert e in Walk(Sub(d, last)).Of(k);
        }
      } else {
        forall n | n in names ensures e !in Walk(Sub(d, n)).Of(k) {
          if n != last { assert n in front; }
        }
      }
    }
  }

  /** The walk is this level followed by the walks of the common subdirectories. */
  lemma WalkMember(d: DirCmp, k: Kind, e: Entry)
    ensures e in Walk(d).Of(k) <==> e in Level(d).Of(k) || exists n | n in CommonDirs(d) :: e in Walk(Sub(d, n)).Of(k)
  {
    WalkSubsMember(d, CommonDirs(d), k, e);
  }

  /** Looking one name down from a listed directory is looking it up in the listing. */
  lemma LookupOnDisk(disk: Disk, d: DirCmp, n: string)
    requires ListedFrom(disk, d)
    ensures At(disk, d.left + [n]) == Lookup(d.leftEntries, n)
    ensures At(disk, d.right + [n]) == Lookup(d.rightEntries, n)
  {
    FindAppend(Dir(disk), d.left, [n]);
    FindAppend(Dir(disk), d.right, [n]);
  }

  lemma PrefixParts(p: Path, q: Path)
    requires p <= q
    ensures q == p + q[|p|..]
  {
  }

  /**
   * An entry below the level of `d` is classified from `d` exactly when it
   * is classified from the common subdirectory its path goes through.
   */
  lemma ClassifiedBelow(disk: Disk, d: DirCmp, k: Kind, e: Entry)
    requires ListedFrom(disk, d)
    requires d.left <= e.sourcePath && e.sourcePath != d.left
    ensures var n := e.sourcePath[|d.left|];
      Classified(disk, d.left, d.right, k, e) <==> BothDirs(d, n) && Classified(disk, d.left + [n], d.right + [n], k, e)
  {
    var n := e.sourcePath[|d.left|];
    var r := e.sourcePath[|d.left|..];
    assert r == [n] + r[1..];
    assert d.left + [n] <= e.sourcePath;
    assert e.sourcePath[|d.left + [n]|..] == r[1..];
    assert d.right + r == d.right + [n] + r[1..];
    if Classified(disk, d.left, d.right, k, e) {
      assert d.right + [n] <= e.targetPath;
      LookupOnDisk(disk, d, n);
      if d.left + [n] != e.sourcePath {
        FindPrefix(Dir(disk), e.sourcePath, d.left + [n]);
      }
      if d.right + [n] != e.targetPath {
        FindPrefix(Dir(disk), e.targetPath, d.right + [n]);
      }
    }
  }

  /** Every entry of the walk of `d` was found at or below `d.left`. */
  lemma {:induction false} WalkUnder(d: DirCmp, k: Kind, e: Entry)
    requires e in Walk(d).Of(k)
    ensures d.left <= e.sourcePath
    decreases Dir(d.leftEntries)
  {
    WalkMember(d, k, e);
    LevelMember(d, k, e);
    if e !in Level(d).Of(k) {
      var n :| n in CommonDirs(d) && e in Walk(Sub(d, n)).Of(k);
      WalkUnder(Sub(d, n), k, e);
    }
  }

  /** An entry of a subdirectory's walk lies below the level of `d`, under that subdirectory's name. */
  lemma SubWalkHolds(d: DirCmp, k: Kind, e: Entry)
    ensures forall m | m in CommonDirs(d) && e in Walk(Sub(d, m)).Of(k) ::
      d.left <= e.sourcePath && e.sourcePath != d.left && m == e.sourcePath[|d.left|]
  {
    forall m | m in CommonDirs(d) && e in Walk(Sub(d, m)).Of(k)
      ensures d.left <= e.sourcePath && e.sourcePath != d.left && m == e.sourcePath[|d.left|]
    {
      WalkUnder(Sub(d, m), k, e);
      assert e.sourcePath[|d.left|] == (d.left + [m])[|d.left|];
    }
  }

  /** The entries of this level are the classified entries whose parent is `d.left` itself. */
  lemma LevelClassified(disk: Disk, d: DirCmp, k: Kind, e: Entry)
    requires ListedFrom(disk, d)
    ensures e in Level(d).Of(k) <==> e.sourcePath == d.left && Classified(disk, d.left, d.right, k, e)
  {
    LevelMember(d, k, e);
    if e.sourcePath == d.left {
      LookupOnDisk(disk, d, e.name);
      assert e.sourcePath[|d.left|..] == [];
      assert d.right + [] == d.right;
    }
  }

  /**
   * The filing rule of `_diff_files_recursion`, stated without the
   * traversal: an entry is in list `k` of the walk of `d` exactly when it
   * is classified into `k` from the roots of `d`.
   */
  lemma {:induction false} WalkClassified(disk: Disk, d: DirCmp, k: Kind, e: Entry)
    requires ListedFrom(disk, d)
    ensures e in Walk(d).Of(k) <==> Classified(disk, d.left, d.right, k, e)
    decreases Dir(d.leftEntries)
  {
    WalkMember(d, k, e);
    LevelClassified(disk, d, k, e);
    var under := d.left <= e.sourcePath && e.sourcePath != d.left;
    SubWalkHolds(d, k, e);
    if under {
      var n := e.sourcePath[|d.left|];
      ClassifiedBelow(disk, d, k, e);
      if BothDirs(d, n) {
        SubListedFrom(disk, d, n);
        WalkClassified(disk, Sub(d, n), k, e);
      }
    }
  }

  /** The five lists `diff_files` fills, from the comparison of `src` with `tgt`. */
  function Found(disk: Disk, src: Path, tgt: Path): Lists
    requires Open(disk, src, tgt).Ok?
  {
    Walk(Open(disk, src, tgt).value)
  }

  /** Which list an entry lands in, read off the two trees. */
  lemma FoundClassified(disk: Disk, src: Path, tgt: Path, k: Kind, e: Entry)
    requires Open(disk, src, tgt).Ok?
    ensures e in Found(disk, src, tgt).Of(k) <==> Classified(disk, src, tgt, k, e)
  {
    WalkClassified(disk, Open(disk, src, tgt).value, k, e);
  }

  /** No two lists share an entry, and a parent and a name pin an entry down. */
  lemma FoundDisjoint(disk: Disk, src: Path, tgt: Path, k1: Kind, k2: Kind, e1: Entry, e2: Entry)
    requires Open(disk, src, tgt).Ok?
    requires e1 in Found(disk, src, tgt).Of(k1) && e2 in Found(disk, src, tgt).Of(k2)
    requires e1.sourcePath == e2.sourcePath && e1.name == e2.name
    ensures e1 == e2 && k1 == k2
  {
    FoundClassified(disk, src, tgt, k1, e1);
    FoundClassified(disk, src, tgt, k2, e2);
  }

  /** A file facing a directory of the same name. */
  predicate Mixed(s: Shape, t: Shape)
  {
    (s.FileShape? && t == DirShape) || (s == DirShape && t.FileShape?)
  }

  /**
   * Identical files, two directories and a file facing a directory are
   * reported in no list.
   */
  lemma UnlistedNames(disk: Disk, src: Path, tgt: Path, r: Path, n: string)
    requires Open(disk, src, tgt).Ok?
    requires var s, t := ShapeOf(At(disk, src + r + [n])), ShapeOf(At(disk, tgt + r + [n])); s == t || Mixed(s, t)
    ensures forall k, e | e in Found(disk, src, tgt).Of(k) :: !(e.sourcePath == src + r && e.name == n)
  {
    forall k, e | e in Found(disk, src, tgt).Of(k) ensures !(e.sourcePath == src + r && e.name == n) {
      FoundClassified(disk, src, tgt, k, e);
    }
  }

  lemma PrefixAppend(p: Path, q: Path, r: Path)
    requires p <= q
    ensures r + p <= r + q
  {
    assert (r + q)[..|r + p|] == r + p;
  }

  /** Nothing classified lies below a directory that only the source has. */
  lemma BelowSourceOnly(disk: Disk, src: Path, tgt: Path, e: Entry, j: Kind, e2: Entry)
    requires Classified(disk, src, tgt, SourceDir, e) && Classified(disk, src, tgt, j, e2)
    ensures !(e.sourcePath + [e.name] <= e2.sourcePath)
  {
    if e.sourcePath + [e.name] <= e2.sourcePath {
      var r, r2 := e.sourcePath[|src|..], e2.sourcePath[|src|..];
      assert r + [e.name] <= r2 by {
        assert e.sourcePath == src + r && e2.sourcePath == src + r2;
        assert r2[..|r + [e.name]|] == (src + r2)[|src|..|src + r + [e.name]|];
      }
      PrefixAppend(r + [e.name], r2, tgt);
      assert tgt + (r + [e.name]) == e.targetPath + [e.name];
      if e.targetPath + [e.name] != e2.targetPath {
        FindPrefix(Dir(disk), e2.targetPath, e.targetPath + [e.name]);
      }
    }
  }

  /** Nothing classified lies below a directory that only the target has. */
  lemma BelowTargetOnly(disk: Disk, src: Path, tgt: Path, e: Entry, j: Kind, e2: Entry)
    requires Classified(disk, src, tgt, TargetDir, e) && Classified(disk, src, tgt, j, e2)
    ensures !(e.sourcePath + [e.name] <= e2.sourcePath)
  {
    if e.sourcePath + [e.name] <= e2.sourcePath && e.sourcePath + [e.name] != e2.sourcePath {
      FindPrefix(Dir(disk), e2.sourcePath, e.sourcePath + [e.name]);
    }
  }

  /**
   * A directory found on one side only is one entry: the walk never goes
   * below it, so nothing under it is listed.
   */
  lemma OneSidedSubtree(disk: Disk, src: Path, tgt: Path, k: Kind, e: Entry)
    requires Open(disk, src, tgt).Ok?
    requires k == SourceDir || k == TargetDir
    requires e in Found(disk, src, tgt).Of(k)
    ensures forall j, e2 | e2 in Found(disk, src, tgt).Of(j) :: !(e.sourcePath + [e.name] <= e2.sourcePath)
  {
    FoundClassified(disk, src, tgt, k, e);
    forall j, e2 | e2 in Found(disk, src, tgt).Of(j) ensures !(e.sourcePath + [e.name] <= e2.sourcePath) {
      FoundClassified(disk, src, tgt, j, e2);
      if k == SourceDir {
        BelowSourceOnly(disk, src, tgt, e, j, e2);
      } else {
        BelowTargetOnly(disk, src, tgt, e, j, e2);
      }
    }
  }

  /**
   * `a` may come before `b` in one list: `b` was not found in a directory
   * above `a`'s, and two entries of one directory come in name order.
   */
  predicate Precedes(a: Entry, b: Entry)
  {
    !(b.sourcePath < a.sourcePath)
    && (a.sourcePath == b.sourcePath ==> Names.Below(a.name, b.name) && a.name != b.name)
  }

  ghost predicate PreOrder(l: seq<Entry>)
  {
    forall i, j | 0 <= i < j < |l| :: Precedes(l[i], l[j])
  }

  lemma PreOrderConcat(a: seq<Entry>, b: seq<Entry>)
    requires PreOrder(a) && PreOrder(b)
    requires forall x, y | x in a && y in b :: Precedes(x, y)
    ensures PreOrder(a + b)
  {
    forall i, j | 0 <= i < j < |a + b| ensures Precedes((a + b)[i], (a + b)[j]) {
      if j < |a| {
      } else if i >= |a| {
        assert (a + b)[i] == b[i - |a|] && (a + b)[j] == b[j - |a|];
      } else {
        assert (a + b)[i] in a && (a + b)[j] in b;
      }
    }
  }

  lemma RecordsPreOrder(names: seq<string>, d: DirCmp)
    requires Names.Increasing(names)
    ensures PreOrder(Records(names, d))
  {
  }

  lemma LevelPreOrder(d: DirCmp, k: Kind)
    ensures PreOrder(Level(d).Of(k))
  {
    ListingsIncreasing(d);
    LevelRecords(d, k);
    match k
    case Modified =>
    case SourceFile => FilterIncreasing(LeftOnly(d), n => IsFileIn(d.leftEntries, n) == true);
    case SourceDir => FilterIncreasing(LeftOnly(d), n => IsFileIn(d.leftEntries, n) == false);
    case TargetFile => FilterIncreasing(RightOnly(d), n => IsFileIn(d.rightEntries, n) == true);
    case TargetDir => FilterIncreasing(RightOnly(d), n => IsFileIn(d.rightEntries, n) == false);
    RecordsPreOrder(LevelNames(d, k), d);
  }

  /**
   * Each list is in pre-order: whatever is found in a directory comes
   * before everything found below it, and one directory's entries come in
   * name order.
   */
  lemma {:induction false} WalkPreOrder(d: DirCmp, k: Kind)
    ensures PreOrder(Walk(d).Of(k))
    decreases Dir(d.leftEntries), 1
  {
    var subs := CommonDirs(d);
    ListingsIncreasing(d);
    LevelPreOrder(d, k);
    WalkSubsPreOrder(d, subs, k);
    forall x, y | x in Level(d).Of(k) && y in WalkSubs(d, subs).Of(k) ensures Precedes(x, y) {
      LevelMember(d, k, x);
    }
    PreOrderConcat(Level(d).Of(k), WalkSubs(d, subs).Of(k));
  }

  /** The walks of distinct subdirectories, one after another, stay in pre-order and lie strictly below `d.left`. */
  lemma {:induction false} WalkSubsPreOrder(d: DirCmp, names: seq<string>, k: Kind)
    requires forall n | n in names :: BothDirs(d, n)
    requires Names.Increasing(names)
    ensures PreOrder(WalkSubs(d, names).Of(k))
    ensures forall e | e in WalkSubs(d, names).Of(k) :: d.left <= e.sourcePath && e.sourcePath != d.left
    decreases Dir(d.leftEntries), 0, |names|
  {
    if names != [] {
      var front, last := names[..|names| - 1], names[|names| - 1];
      assert Names.Increasing(front);
      assert last !in front by {
        forall i | 0 <= i < |front| ensures front[i] != last {
          assert names[i] == front[i];
        }
      }
      WalkSubsPreOrder(d, front, k);
      WalkPreOrder(Sub(d, last), k);
      FrontBeforeLast(d, front, last, k);
      assert WalkSubs(d, names).Of(k) == WalkSubs(d, front).Of(k) + Walk(Sub(d, last)).Of(k);
      PreOrderConcat(WalkSubs(d, front).Of(k), Walk(Sub(d, last)).Of(k));
    }
  }

  /** The walks of the earlier subdirectories precede that of a later one, which lies below `d.left`. */
  lemma FrontBeforeLast(d: DirCmp, front: seq<string>, last: string, k: Kind)
    requires forall n | n in front :: BothDirs(d, n)
    requires BothDirs(d, last) && last !in front
    ensures forall x, y | x in WalkSubs(d, front).Of(k) && y in Walk(Sub(d, last)).Of(k) :: Precedes(x, y)
    ensures forall y | y in Walk(Sub(d, last)).Of(k) :: d.left <= y.sourcePath && y.sourcePath != d.left
  {
    forall y | y in Walk(Sub(d, last)).Of(k) ensures d.left <= y.sourcePath && y.sourcePath != d.left {
      WalkUnder(Sub(d, last), k, y);
    }
    forall x, y | x in WalkSubs(d, front).Of(k) && y in Walk(Sub(d, last)).Of(k) ensures Precedes(x, y) {
      WalkSubsMember(d, front, k, x);
      var m :| m in front && x in Walk(Sub(d, m)).Of(k);
      SubWalksApart(d, m, last, k, x, y);
    }
  }

  /** Entries of the walks of two different subdirectories are in neither's directories above the other's. */
  lemma SubWalksApart(d: DirCmp, m: string, n: string, k: Kind, x: Entry, y: Entry)
    requires BothDirs(d, m) && BothDirs(d, n) && m != n
    requires x in Walk(Sub(d, m)).Of(k) && y in Walk(Sub(d, n)).Of(k)
    ensures Precedes(x, y)
  {
    WalkUnder(Sub(d, m), k, x);
    WalkUnder(Sub(d, n), k, y);
    assert x.sourcePath[|d.left|] == m && y.sourcePath[|d.left|] == n;
  }

  /** Hence no list holds the same entry twice. */
  lemma WalkNoRepeats(d: DirCmp, k: Kind)
    ensures forall i, j | 0 <= i < j < |Walk(d).Of(k)| :: Walk(d).Of(k)[i] != Walk(d).Of(k)[j]
  {
    WalkPreOrder(d, k);
  }
}
