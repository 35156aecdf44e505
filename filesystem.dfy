/**
 * An abstract filesystem standing in for the real one: a tree of regular
 * files and directories, addressed by paths that are sequences of names.
 * The four library calls the reconciler makes (`shutil.copy`,
 * `shutil.copytree`, `os.remove`, `shutil.rmtree`) are functions from one
 * disk to the next that return an error where the real call would raise.
 */
module FileSystem {
  import opened Wrappers

  /** A path: the names from the filesystem root down, with no separators. */
  type Path = seq<string>

  /** File contents are compared only for equality, so any byte model will do. */
  datatype Node = File(content: seq<int>) | Dir(entries: map<string, Node>)

  /** The whole filesystem: the entries of its root directory. */
  type Disk = map<string, Node>

  /** The kind of exception the real call would raise. */
  datatype FsError =
    | FileNotFound(path: Path)
    | IsADirectory(path: Path)
    | NotADirectory(path: Path)
    | FileExists(path: Path)
    | SameFile(path: Path)
    | PermissionDenied(path: Path)

  /** The node reached from `n` by following `p`, if every step exists. */
  function Find(n: Node, p: Path): (r: Option<Node>)
    ensures p == [] ==> r == Some(n)
    decreases |p|
  {
    if p == [] then Some(n)
    else match n
      case File(_) => None
      case Dir(m) => if p[0] in m then Find(m[p[0]], p[1..]) else None
  }

  function At(disk: Disk, p: Path): Option<Node>
  {
    Find(Dir(disk), p)
  }

  /** `os.path.isdir`. */
  predicate IsDirAt(disk: Disk, p: Path)
  {
    At(disk, p).Some? && At(disk, p).value.Dir?
  }

  /** `os.path.isfile`. */
  predicate IsFileAt(disk: Disk, p: Path)
  {
    At(disk, p).Some? && At(disk, p).value.File?
  }

  function Parent(p: Path): Path
    requires p != []
  {
    p[..|p| - 1]
  }

  function Base(p: Path): string
    requires p != []
  {
    p[|p| - 1]
  }

  /** What a lookup tells apart: missing, a file with its content, or a directory. */
  datatype Shape = Absent | FileShape(content: seq<int>) | DirShape

  function ShapeOf(o: Option<Node>): Shape
  {
    match o
    case None => Absent
    case Some(File(c)) => FileShape(c)
    case Some(Dir(_)) => DirShape
  }

  lemma {:induction false} FindAppend(n: Node, p: Path, q: Path)
    ensures Find(n, p + q) == if Find(n, p).Some? then Find(Find(n, p).value, q) else None
    decreases |p|
  {
    if p == [] {
      assert p + q == q;
    } else {
      assert (p + q)[0] == p[0] && (p + q)[1..] == p[1..] + q;
      if n.Dir? && p[0] in n.entries {
        FindAppend(n.entries[p[0]], p[1..], q);
      }
    }
  }

  /** One step down the way to the parent of `p`. */
  lemma FindParentStep(n: Node, p: Path)
    requires |p| > 1 && Find(n, Parent(p)).Some?
    ensures n.Dir? && p[0] in n.entries
    ensures Find(n.entries[p[0]], Parent(p[1..])) == Find(n, Parent(p))
  {
    assert Parent(p)[0] == p[0] && Parent(p)[1..] == Parent(p[1..]);
  }

  /** Every directory on the way to an existing node exists and is a directory. */
  lemma FindPrefix(n: Node, p: Path, q: Path)
    requires q <= p && Find(n, p).Some? && q != p
    ensures Find(n, q).Some? && Find(n, q).value.Dir?
  {
    assert p == q + p[|q|..];
    FindAppend(n, q, p[|q|..]);
  }

  /** Replaces the node at `p` by `v`, or unlinks it when `v` is None. */
  function Put(n: Node, p: Path, v: Option<Node>): (r: Node)
    requires p != [] && Find(n, Parent(p)).Some? && Find(n, Parent(p)).value.Dir?
    ensures r.Dir?
    decreases |p|
  {
    var m := n.entries;
    if |p| == 1 then
      Dir(if v.Some? then m[p[0] := v.value] else m - {p[0]})
    else
      FindParentStep(n, p);
      Dir(m[p[0] := Put(m[p[0]], p[1..], v)])
  }

  /** Writing at `p` changes nothing that is not above, at or below `p`. */
  lemma {:induction false} FindPutApart(n: Node, p: Path, v: Option<Node>, q: Path)
    requires p != [] && Find(n, Parent(p)).Some? && Find(n, Parent(p)).value.Dir?
    requires !(p <= q) && !(q <= p)
    ensures Find(Put(n, p, v), q) == Find(n, q)
    decreases |p|
  {
    var m := n.entries;
    if p[0] == q[0] {
      FindParentStep(n, p);
      FindPutApart(m[p[0]], p[1..], v, q[1..]);
    }
  }

  /** Below the written path, the new tree shows the written node. */
  lemma {:induction false} FindPutBelow(n: Node, p: Path, v: Option<Node>, q: Path)
    requires p != [] && Find(n, Parent(p)).Some? && Find(n, Parent(p)).value.Dir?
    requires p <= q
    ensures Find(Put(n, p, v), q) == if v.Some? then Find(v.value, q[|p|..]) else None
    decreases |p|
  {
    var m := n.entries;
    assert q[0] == p[0];
    if |p| == 1 {
      assert q[1..] == q[|p|..];
    } else {
      FindParentStep(n, p);
      FindPutBelow(m[p[0]], p[1..], v, q[1..]);
      assert q[1..][|p[1..]|..] == q[|p|..];
    }
  }

  /** Above the written path every directory stays a directory. */
  lemma {:induction false} FindPutAbove(n: Node, p: Path, v: Option<Node>, q: Path)
    requires p != [] && Find(n, Parent(p)).Some? && Find(n, Parent(p)).value.Dir?
    requires q <= p && q != p
    ensures Find(n, q).Some? && Find(n, q).value.Dir?
    ensures Find(Put(n, p, v), q).Some? && Find(Put(n, p, v), q).value.Dir?
    decreases |p|
  {
    assert q <= Parent(p);
    if q != Parent(p) { FindPrefix(n, Parent(p), q); }
    if q != [] {
      var m := n.entries;
      assert |p| > 1;
      FindParentStep(n, p);
      FindPutAbove(m[p[0]], p[1..], v, q[1..]);
    }
  }

  /** What a write at `p` does to what any lookup tells apart. */
  lemma ShapeAfterPut(n: Node, p: Path, v: Option<Node>, q: Path)
    requires p != [] && Find(n, Parent(p)).Some? && Find(n, Parent(p)).value.Dir?
    ensures ShapeOf(Find(Put(n, p, v), q)) ==
      if p <= q then ShapeOf(if v.Some? then Find(v.value, q[|p|..]) else None)
      else ShapeOf(Find(n, q))
  {
    if p <= q {
      FindPutBelow(n, p, v, q);
    } else if q <= p {
      FindPutAbove(n, p, v, q);
    } else {
      FindPutApart(n, p, v, q);
    }
  }

  /** Writes a node at a path whose parent directory exists. */
  function PutAt(disk: Disk, p: Path, v: Option<Node>): Disk
    requires p != [] && IsDirAt(disk, Parent(p))
  {
    Put(Dir(disk), p, v).entries
  }

  lemma PutAtIsPut(disk: Disk, p: Path, v: Option<Node>)
    requires p != [] && IsDirAt(disk, Parent(p))
    ensures Dir(PutAt(disk, p, v)) == Put(Dir(disk), p, v)
  {
  }

  /** An existing node other than the root sits in an existing directory. */
  lemma ParentExists(disk: Disk, p: Path)
    requires p != [] && At(disk, p).Some?
    ensures IsDirAt(disk, Parent(p))
  {
    FindPrefix(Dir(disk), p, Parent(p));
  }

  /**
   * `d` is `disk` with `v` written at `p`: at and below `p` it shows `v`,
   * every directory on the way to `p` exists, and nothing else changed.
   */
  ghost predicate Placed(disk: Disk, p: Path, v: Option<Node>, d: Disk)
  {
    && (forall r :: At(d, p + r) == (if v.Some? then Find(v.value, r) else None))
    && (forall q | q <= p && q != p :: IsDirAt(d, q))
    && (forall q | !(p <= q) && !(q <= p) :: At(d, q) == At(disk, q))
  }

  lemma PutAtPlaced(disk: Disk, p: Path, v: Option<Node>)
    requires p != [] && IsDirAt(disk, Parent(p))
    ensures Placed(disk, p, v, PutAt(disk, p, v))
  {
    forall r ensures At(PutAt(disk, p, v), p + r) == (if v.Some? then Find(v.value, r) else None) {
      FindPutBelow(Dir(disk), p, v, p + r);
      assert (p + r)[|p|..] == r;
    }
    forall q | q <= p && q != p ensures IsDirAt(PutAt(disk, p, v), q) {
      FindPutAbove(Dir(disk), p, v, q);
    }
    forall q | !(p <= q) && !(q <= p) ensures At(PutAt(disk, p, v), q) == At(disk, q) {
      FindPutApart(Dir(disk), p, v, q);
    }
  }

  /** Some directory on the way to `p` is a regular file. */
  predicate FileAbove(disk: Disk, p: Path)
  {
    exists i | 0 < i < |p| :: IsFileAt(disk, p[..i])
  }

  /** What a call raises for a path that does not exist: a file on the way makes it `NotADirectoryError`. */
  function Missing(disk: Disk, p: Path): FsError
  {
    if FileAbove(disk, p) then NotADirectory(p) else FileNotFound(p)
  }

  /**
   * Puts `v` at `p`, creating every missing directory on the way, as
   * `os.makedirs` does before `shutil.copytree` fills the new directory.
   */
  function Graft(n: Node, p: Path, v: Node): (r: Node)
    requires p != []
    ensures r.Dir?
    decreases |p|
  {
    var m := if n.Dir? then n.entries else map[];
    if |p| == 1 then Dir(m[p[0] := v])
    else Dir(m[p[0] := Graft(if p[0] in m then m[p[0]] else Dir(map[]), p[1..], v)])
  }

  /** At and below `p`, the grafted tree shows `v`. */
  lemma {:induction false} GraftBelow(n: Node, p: Path, v: Node, q: Path)
    requires p != [] && p <= q
    ensures Find(Graft(n, p, v), q) == Find(v, q[|p|..])
    decreases |p|
  {
    assert q[0] == p[0];
    if |p| == 1 {
      assert q[1..] == q[|p|..];
    } else {
      var m := if n.Dir? then n.entries else map[];
      GraftBelow(if p[0] in m then m[p[0]] else Dir(map[]), p[1..], v, q[1..]);
      assert q[1..][|p[1..]|..] == q[|p|..];
    }
  }

  /** Every directory on the way to `p` exists afterwards. */
  lemma {:induction false} GraftAbove(n: Node, p: Path, v: Node, q: Path)
    requires p != [] && q <= p && q != p
    ensures Find(Graft(n, p, v), q).Some? && Find(Graft(n, p, v), q).value.Dir?
    decreases |p|
  {
    if q != [] {
      var m := if n.Dir? then n.entries else map[];
      GraftAbove(if p[0] in m then m[p[0]] else Dir(map[]), p[1..], v, q[1..]);
    }
  }

  /** Away from `p` and the directories on its way, nothing changes. */
  lemma {:induction false} GraftApart(n: Node, p: Path, v: Node, q: Path)
    requires p != [] && !(p <= q) && !(q <= p)
    ensures Find(Graft(n, p, v), q) == Find(n, q)
    decreases |p|
  {
    var m := if n.Dir? then n.entries else map[];
    if q[0] == p[0] {
      var child := if p[0] in m then m[p[0]] else Dir(map[]);
      GraftApart(child, p[1..], v, q[1..]);
      if p[0] !in m {
        assert Find(child, q[1..]) == None;
      }
    }
  }

  lemma GraftPlaced(disk: Disk, p: Path, v: Node)
    requires p != []
    ensures Placed(disk, p, Some(v), Graft(Dir(disk), p, v).entries)
  {
    var g := Graft(Dir(disk), p, v);
    assert Dir(g.entries) == g;
    forall r ensures Find(g, p + r) == Find(v, r) {
      GraftBelow(Dir(disk), p, v, p + r);
      assert (p + r)[|p|..] == r;
    }
    forall q | q <= p && q != p ensures Find(g, q).Some? && Find(g, q).value.Dir? {
      GraftAbove(Dir(disk), p, v, q);
    }
    forall q | !(p <= q) && !(q <= p) ensures Find(g, q) == At(disk, q) {
      GraftApart(Dir(disk), p, v, q);
    }
  }

  /** No regular file lies on the way to a path whose parent directory exists. */
  lemma NoFileAbove(disk: Disk, p: Path)
    requires p != [] && IsDirAt(disk, Parent(p))
    ensures !FileAbove(disk, p)
  {
    forall i | 0 < i < |p| ensures !IsFileAt(disk, p[..i]) {
      if p[..i] != Parent(p) {
        FindPrefix(Dir(disk), Parent(p), p[..i]);
      }
    }
  }

  /** Where `shutil.copy(src, dst)` writes. */
  function CopyDest(disk: Disk, src: Path, dst: Path): Path
  {
    if src != [] && IsDirAt(disk, dst) then dst + [Base(src)] else dst
  }

  /**
   * `shutil.copy(src, dst)`: when `dst` is a directory the copy goes to
   * `dst` joined with the base name of `src`; the copy replaces an existing
   * file there and fails on a directory or a missing parent directory.
   */
  function Copy(disk: Disk, src: Path, dst: Path): (r: Result<Disk, FsError>)
  {
    match At(disk, src)
    case None => Err(Missing(disk, src))
    case Some(Dir(_)) => Err(IsADirectory(src))
    case Some(File(c)) =>
      var d := CopyDest(disk, src, dst);
      if d == src then Err(SameFile(d))
      else if IsDirAt(disk, d) then Err(IsADirectory(d))
      else if !IsDirAt(disk, Parent(d)) then Err(Missing(disk, d))
      else Ok(PutAt(disk, d, Some(File(c))))
  }

  /**
   * `shutil.copytree(src, dst)`: copies the whole directory `src` to the new
   * path `dst`, which must not exist yet; missing directories on the way to
   * `dst` are created, and a regular file on the way makes it raise.
   */
  function CopyTree(disk: Disk, src: Path, dst: Path): (r: Result<Disk, FsError>)
  {
    match At(disk, src)
    case None => Err(Missing(disk, src))
    case Some(File(_)) => Err(NotADirectory(src))
    case Some(Dir(m)) =>
      if At(disk, dst).Some? then Err(FileExists(dst))
      else if IsDirAt(disk, Parent(dst)) then Ok(PutAt(disk, dst, Some(Dir(m))))
      else if FileAbove(disk, dst) then Err(NotADirectory(dst))
      else Ok(Graft(Dir(disk), dst, Dir(m)).entries)
  }

  /** `os.remove(p)`: unlinks a regular file. */
  function Remove(disk: Disk, p: Path): (r: Result<Disk, FsError>)
  {
    match At(disk, p)
    case None => Err(Missing(disk, p))
    case Some(Dir(_)) => Err(IsADirectory(p))
    case Some(File(_)) =>
      ParentExists(disk, p);
      Ok(PutAt(disk, p, None))
  }

  /** `shutil.rmtree(p)`: removes a directory and everything below it. */
  function RemoveTree(disk: Disk, p: Path): (r: Result<Disk, FsError>)
  {
    match At(disk, p)
    case None => Err(Missing(disk, p))
    case Some(File(_)) => Err(NotADirectory(p))
    case Some(Dir(_)) =>
      if p == [] then Err(PermissionDenied(p))
      else
        ParentExists(disk, p);
        Ok(PutAt(disk, p, None))
  }

  /** `shutil.copy` succeeds exactly when a regular file can go to its destination, and then writes it there. */
  lemma CopyEffect(disk: Disk, src: Path, dst: Path)
    ensures var d := CopyDest(disk, src, dst);
      Copy(disk, src, dst).Ok? <==>
        IsFileAt(disk, src) && d != src && !IsDirAt(disk, d) && IsDirAt(disk, Parent(d))
    ensures Copy(disk, src, dst).Ok? ==>
      Placed(disk, CopyDest(disk, src, dst), At(disk, src), Copy(disk, src, dst).value)
  {
    var d := CopyDest(disk, src, dst);
    if Copy(disk, src, dst).Ok? {
      PutAtPlaced(disk, d, At(disk, src));
    }
  }

  /**
   * `shutil.copytree` succeeds exactly when `src` is a directory, `dst` does
   * not exist and no regular file is on the way to it; then `dst` holds a
   * copy of `src`, with any missing directory above it created.
   */
  lemma CopyTreeEffect(disk: Disk, src: Path, dst: Path)
    ensures CopyTree(disk, src, dst).Ok? <==>
      IsDirAt(disk, src) && At(disk, dst) == None && !FileAbove(disk, dst)
    ensures CopyTree(disk, src, dst).Ok? ==>
      Placed(disk, dst, At(disk, src), CopyTree(disk, src, dst).value)
  {
    if IsDirAt(disk, src) && At(disk, dst) == None {
      assert dst != [];
      if IsDirAt(disk, Parent(dst)) {
        NoFileAbove(disk, dst);
        PutAtPlaced(disk, dst, At(disk, src));
      } else if !FileAbove(disk, dst) {
        GraftPlaced(disk, dst, At(disk, src).value);
      }
    }
  }

  /** `os.remove` succeeds exactly on a regular file, and unlinks it. */
  lemma RemoveEffect(disk: Disk, p: Path)
    ensures Remove(disk, p).Ok? <==> IsFileAt(disk, p)
    ensures Remove(disk, p).Ok? ==> Placed(disk, p, None, Remove(disk, p).value)
  {
    if IsFileAt(disk, p) {
      ParentExists(disk, p);
      PutAtPlaced(disk, p, None);
    }
  }

  /** `shutil.rmtree` succeeds exactly on a directory other than the root, and removes all of it. */
  lemma RemoveTreeEffect(disk: Disk, p: Path)
    ensures RemoveTree(disk, p).Ok? <==> p != [] && IsDirAt(disk, p)
    ensures RemoveTree(disk, p).Ok? ==> Placed(disk, p, None, RemoveTree(disk, p).value)
  {
    if p != [] && IsDirAt(disk, p) {
      ParentExists(disk, p);
      PutAtPlaced(disk, p, None);
    }
  }
}
