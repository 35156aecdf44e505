/**
 * A modified file one level down is not mirrored. With `s/a/x` and `t/a/x`
 * differing, `Overwrite` copies `s/a/x` to `t/x`, the target root, so the
 * next `diff_files` reports `x` in `a` as modified again and `x` in the
 * target root as a file only in the target.
 */
module NestedModified {
  import opened Wrappers
  import opened FileSystem
  import opened DirCompare
  import opened Sync
  import opened WalkFacts
  import opened ReplayFacts
  import opened Independent
  import opened Convergence

  /** `s/a/x` holds [1] and `t/a/x` holds [2]. */
  function Nested(): Disk
  {
    map["s" := Dir(map["a" := Dir(map["x" := File([1])])]),
        "t" := Dir(map["a" := Dir(map["x" := File([2])])])]
  }

  const Deep := Entry("x", ["s", "a"], ["t", "a"])

  lemma FindCons(n: Node, a: string, r: Path)
    ensures Find(n, [a] + r) == if n.Dir? && a in n.entries then Find(n.entries[a], r) else None
  {
    assert ([a] + r)[0] == a && ([a] + r)[1..] == r;
  }

  /** The directories under either root are the root and its `a`. */
  lemma NestedDirs(root: string, r: Path)
    requires root == "s" || root == "t"
    ensures IsDirAt(Nested(), [root] + r) ==> r == [] || r == ["a"]
  {
    var top := Nested()[root];
    FindCons(Dir(Nested()), root, r);
    if r != [] {
      FindCons(top, r[0], r[1..]);
      assert [r[0]] + r[1..] == r;
      if r[0] == "a" && r[1..] != [] {
        var inner := top.entries["a"];
        FindCons(inner, r[1], r[2..]);
        assert [r[1]] + r[2..] == r[1..];
        if r[1] == "x" && r[2..] != [] {
          FindCons(inner.entries["x"], r[2], r[3..]);
          assert [r[2]] + r[3..] == r[2..];
        }
      }
    }
  }

  lemma NestedAt(root: string, r: Path, n: string)
    requires root == "s" || root == "t"
    ensures r == [] ==> At(Nested(), [root] + r + [n]) == if n == "a" then Some(Nested()[root].entries["a"]) else None
    ensures r == ["a"] ==>
      At(Nested(), [root] + r + [n]) == (if n == "x" then Some(File(if root == "s" then [1] else [2])) else None)
  {
    var top := Nested()[root];
    if r == [] {
      assert [root] + r + [n] == [root] + [n];
      FindCons(Dir(Nested()), root, [n]);
      FindCons(top, n, []);
    } else if r == ["a"] {
      assert [root] + r + [n] == [root] + (["a"] + [n]);
      FindCons(Dir(Nested()), root, ["a"] + [n]);
      FindCons(top, "a", [n]);
      FindCons(top.entries["a"], n, []);
    }
  }

  /** Exactly one record holds: `x` in `a`, a modified file. */
  lemma NestedClassified(disk: Disk, src: Path, tgt: Path, k: Kind, e: Entry)
    requires disk == Nested() && src == ["s"] && tgt == ["t"]
    ensures Classified(disk, src, tgt, k, e) <==> k == Modified && e == Deep
  {
    if src <= e.sourcePath && e.targetPath == tgt + e.sourcePath[|src|..] {
      var r := e.sourcePath[1..];
      assert e.sourcePath == ["s"] + r;
      NestedDirs("s", r);
      NestedAt("s", r, e.name);
      NestedAt("t", r, e.name);
      if r == [] {
        NestedAt("s", [], "a");
      }
      if r == ["a"] {
        FindCons(Dir(Nested()), "s", ["a"]);
        FindCons(Nested()["s"], "a", []);
        FindCons(Dir(Nested()), "t", ["a"]);
        FindCons(Nested()["t"], "a", []);
      }
    }
  }

  lemma OnlyMember(s: seq<Entry>, x: Entry)
    requires forall y :: y in s <==> y == x
    requires Distinct(s)
    ensures s == [x]
  {
    assert x in s;
    assert s[0] in s && s[|s| - 1] in s;
  }

  lemma NestedOpen(disk: Disk, src: Path, tgt: Path)
    requires disk == Nested() && src == ["s"] && tgt == ["t"]
    ensures Open(disk, src, tgt).Ok?
  {
    FindCons(Dir(Nested()), "s", []);
    FindCons(Dir(Nested()), "t", []);
  }

  /** When the lists hold exactly one record, a modified file, they are that record and nothing else. */
  lemma OnlyModified(disk: Disk, src: Path, tgt: Path, x: Entry)
    requires Open(disk, src, tgt).Ok?
    requires forall k, e :: e in Found(disk, src, tgt).Of(k) <==> k == Modified && e == x
    ensures Found(disk, src, tgt) == Lists([x], [], [], [], [])
  {
    var l := Found(disk, src, tgt);
    WalkNoRepeats(Open(disk, src, tgt).value, Modified);
    assert l.Of(Modified) == l.diffFilesList;
    OnlyMember(l.diffFilesList, x);
    NoMembers(l.Of(SourceFile));
    NoMembers(l.Of(TargetFile));
    NoMembers(l.Of(SourceDir));
    NoMembers(l.Of(TargetDir));
  }

  /** `diff_files` on the two roots lists that one record and nothing else. */
  lemma NestedFound(disk: Disk, src: Path, tgt: Path)
    requires disk == Nested() && src == ["s"] && tgt == ["t"]
    ensures Open(disk, src, tgt).Ok?
    ensures Found(disk, src, tgt) == Lists([Deep], [], [], [], [])
  {
    NestedOpen(disk, src, tgt);
    forall k, e ensures e in Found(disk, src, tgt).Of(k) <==> k == Modified && e == Deep {
      FoundClassified(disk, src, tgt, k, e);
      NestedClassified(disk, src, tgt, k, e);
    }
    OnlyModified(disk, src, tgt, Deep);
  }

  /** The copy writes `t/x`; away from it nothing changes, and `t` stays a directory. */
  lemma AfterCopy(disk: Disk, q: Path)
    requires disk == Nested()
    ensures IsDirAt(disk, ["t"])
    ensures var d := PutAt(disk, ["t", "x"], Some(File([1])));
      && At(d, ["t", "x"]) == Some(File([1]))
      && (Apart(["t", "x"], q) ==> At(d, q) == At(disk, q))
      && IsDirAt(d, ["t"])
  {
    var p := ["t", "x"];
    FindCons(Dir(disk), "t", []);
    assert Parent(p) == ["t"];
    PutAtBelow(disk, p, Some(File([1])), p);
    PutAtAbove(disk, p, Some(File([1])), ["t"]);
    if Apart(p, q) {
      PutAtApart(disk, p, Some(File([1])), q);
    }
  }

  lemma PlanOfDeep(tgt: Path)
    ensures Plan(Lists([Deep], [], [], [], []), tgt) == [CopyFile(["s", "a", "x"], tgt)]
  {
    assert Origin(Deep) == ["s", "a", "x"];
    assert Actions(Modified, [Deep], tgt)[0] == CopyFile(["s", "a", "x"], tgt);
  }

  /** The copy of `s/a/x` into the target root succeeds and writes `t/x`. */
  lemma CopyDeep(disk: Disk, tgt: Path)
    requires disk == Nested() && tgt == ["t"]
    ensures IsDirAt(disk, ["t"])
    ensures Apply(disk, [CopyFile(["s", "a", "x"], tgt)]) == Done(PutAt(disk, ["t", "x"], Some(File([1]))))
  {
    var a := CopyFile(["s", "a", "x"], tgt);
    FindCons(Dir(disk), "s", ["a", "x"]);
    FindCons(disk["s"], "a", ["x"]);
    FindCons(disk["s"].entries["a"], "x", []);
    FindCons(Dir(disk), "t", []);
    FindCons(Dir(disk), "t", ["x"]);
    FindCons(disk["t"], "x", []);
    assert Ready(disk, a);
    ReadyStep(disk, a);
    assert [a][1..] == [];
  }

  /** `Overwrite` after that comparison makes one call, which succeeds and clears the lists. */
  lemma NestedRound(disk: Disk, src: Path, tgt: Path) returns (d: Disk)
    requires disk == Nested() && src == ["s"] && tgt == ["t"]
    ensures Open(disk, src, tgt).Ok?
    ensures IsDirAt(disk, ["t"]) && d == PutAt(disk, ["t", "x"], Some(File([1])))
    ensures Reconcile(disk, Found(disk, src, tgt), tgt) == Outcome(d, NoLists, None)
    ensures At(d, ["t", "x"]) == Some(File([1]))
  {
    AfterCopy(disk, []);
    d := PutAt(disk, ["t", "x"], Some(File([1])));
    NestedFound(disk, src, tgt);
    var l := Found(disk, src, tgt);
    PlanOfDeep(tgt);
    CopyDeep(disk, tgt);
    ReconcileRunsPlan(disk, l, tgt);
  }

  lemma SourceAfter(disk: Disk, d: Disk)
    requires disk == Nested() && d == PutAt(disk, ["t", "x"], Some(File([1])))
    ensures IsDirAt(d, ["s"]) && IsDirAt(d, ["s", "a"]) && At(d, ["s", "x"]) == None
    ensures At(d, ["s", "a", "x"]) == Some(File([1]))
  {
    AfterCopy(disk, ["s"]);
    AfterCopy(disk, ["s", "a"]);
    AfterCopy(disk, ["s", "a", "x"]);
    AfterCopy(disk, ["s", "x"]);
    FindCons(Dir(disk), "s", []);
    FindCons(Dir(disk), "s", ["x"]);
    FindCons(disk["s"], "x", []);
    FindCons(Dir(disk), "s", ["a"]);
    FindCons(disk["s"], "a", []);
    FindCons(Dir(disk), "s", ["a", "x"]);
    FindCons(disk["s"], "a", ["x"]);
    FindCons(disk["s"].entries["a"], "x", []);
  }

  lemma TargetAfter(disk: Disk, d: Disk)
    requires disk == Nested() && d == PutAt(disk, ["t", "x"], Some(File([1])))
    ensures IsDirAt(d, ["t"]) && IsDirAt(d, ["t", "a"]) && At(d, ["t", "x"]) == Some(File([1]))
    ensures At(d, ["t", "a", "x"]) == Some(File([2]))
  {
    AfterCopy(disk, ["t", "a"]);
    AfterCopy(disk, ["t", "a", "x"]);
    FindCons(Dir(disk), "t", ["a"]);
    FindCons(disk["t"], "a", []);
    FindCons(Dir(disk), "t", ["a", "x"]);
    FindCons(disk["t"], "a", ["x"]);
    FindCons(disk["t"].entries["a"], "x", []);
  }

  /** What the comparison sees after the copy. */
  lemma NestedAfter(disk: Disk, d: Disk, src: Path, tgt: Path)
    requires disk == Nested() && d == PutAt(disk, ["t", "x"], Some(File([1]))) && src == ["s"] && tgt == ["t"]
    ensures Open(d, src, tgt).Ok?
    ensures Classified(d, src, tgt, Modified, Deep)
    ensures Classified(d, src, tgt, TargetFile, Entry("x", src, tgt))
  {
    SourceAfter(disk, d);
    TargetAfter(disk, d);
    assert Slot(Deep) == ["t", "a", "x"] && Origin(Deep) == ["s", "a", "x"];
    assert Slot(Entry("x", src, tgt)) == ["t", "x"] && Origin(Entry("x", src, tgt)) == ["s", "x"];
  }

  /** The next comparison reports `x` in `a` as modified and `x` in the target root as only in the target. */
  lemma NestedRediff(disk: Disk, d: Disk, src: Path, tgt: Path)
    requires disk == Nested() && d == PutAt(disk, ["t", "x"], Some(File([1]))) && src == ["s"] && tgt == ["t"]
    ensures Open(d, src, tgt).Ok?
    ensures Deep in Found(d, src, tgt).diffFilesList && Entry("x", src, tgt) in Found(d, src, tgt).fileInTarget
  {
    NestedAfter(disk, d, src, tgt);
    FoundClassified(d, src, tgt, Modified, Deep);
    FoundClassified(d, src, tgt, TargetFile, Entry("x", src, tgt));
  }

  /**
   * Hence `Overwrite` succeeds and clears the lists, yet the next
   * `diff_files` reports `x` in `a` as modified once more and the stray
   * `t/x` as a file only in the target: the two trees do not converge.
   */
  lemma NestedModifiedReturns(disk: Disk, src: Path, tgt: Path)
    requires disk == Nested() && src == ["s"] && tgt == ["t"]
    ensures Open(disk, src, tgt).Ok?
    ensures var o := Reconcile(disk, Found(disk, src, tgt), tgt);
      && o.raised == None && o.lists == NoLists
      && At(o.disk, ["t", "x"]) == Some(File([1]))
      && Open(o.disk, src, tgt).Ok?
      && Deep in Found(o.disk, src, tgt).diffFilesList
      && Entry("x", src, tgt) in Found(o.disk, src, tgt).fileInTarget
  {
    var d := NestedRound(disk, src, tgt);
    NestedRediff(disk, d, src, tgt);
  }
}
