/**
 * What a second `diff_files` finds after `Overwrite`. When every modified
 * file sits directly in the target root, one round makes the target a
 * mirror: the round succeeds and a fresh comparison reports nothing. A
 * modified file deeper down is copied into the target root instead
 * (`shutil.copy(src, target_root)`), so the next comparison reports it
 * again, next to a stray copy that is then "only in Target".
 */
module Convergence {
  import opened Wrappers
  import opened FileSystem
  import opened DirCompare
  import opened Sync
  import opened WalkFacts
  import opened ReplayFacts
  import opened Independent

  /** The path of the target entry a record stands for. */
  function Slot(e: Entry): Path
  {
    e.targetPath + [e.name]
  }

  /** The path of the source entry a record stands for. */
  function Origin(e: Entry): Path
  {
    e.sourcePath + [e.name]
  }

  ghost predicate Distinct<T>(s: seq<T>)
  {
    forall i, j | 0 <= i < j < |s| :: s[i] != s[j]
  }

  function Tag(k: Kind, es: seq<Entry>): (r: seq<(Kind, Entry)>)
    ensures |r| == |es| && forall i | 0 <= i < |es| :: r[i] == (k, es[i])
  {
    seq(|es|, i requires 0 <= i < |es| => (k, es[i]))
  }

  /** Every record of the five lists with its list, in the order `Overwrite` visits them. */
  function Tagged(l: Lists): seq<(Kind, Entry)>
  {
    Tag(Modified, l.diffFilesList) + Tag(SourceFile, l.fileInSource) + Tag(SourceDir, l.dirInSource)
      + Tag(TargetFile, l.fileInTarget) + Tag(TargetDir, l.dirInTarget)
  }

  function Entries(l: Lists): (r: seq<Entry>)
    ensures |r| == |Tagged(l)| && forall i | 0 <= i < |r| :: r[i] == Tagged(l)[i].1
  {
    seq(|Tagged(l)|, i requires 0 <= i < |Tagged(l)| => Tagged(l)[i].1)
  }

  function Calls(ts: seq<(Kind, Entry)>, root: Path): (r: seq<Action>)
    ensures |r| == |ts| && forall i | 0 <= i < |ts| :: r[i] == ActionFor(ts[i].0, ts[i].1, root)
  {
    seq(|ts|, i requires 0 <= i < |ts| => ActionFor(ts[i].0, ts[i].1, root))
  }

  lemma CallsConcat(a: seq<(Kind, Entry)>, b: seq<(Kind, Entry)>, root: Path)
    ensures Calls(a + b, root) == Calls(a, root) + Calls(b, root)
  {
  }

  /** The plan is the call for each tagged record, one after another. */
  lemma PlanIsCalls(l: Lists, root: Path)
    ensures Plan(l, root) == Calls(Tagged(l), root)
  {
    var t1, t2, t3 := Tag(Modified, l.diffFilesList), Tag(SourceFile, l.fileInSource), Tag(SourceDir, l.dirInSource);
    var t4, t5 := Tag(TargetFile, l.fileInTarget), Tag(TargetDir, l.dirInTarget);
    CallsConcat(t1, t2, root);
    CallsConcat(t1 + t2, t3, root);
    CallsConcat(t1 + t2 + t3, t4, root);
    CallsConcat(t1 + t2 + t3 + t4, t5, root);
    assert Actions(Modified, l.diffFilesList, root) == Calls(t1, root);
    assert Actions(SourceFile, l.fileInSource, root) == Calls(t2, root);
    assert Actions(SourceDir, l.dirInSource, root) == Calls(t3, root);
    assert Actions(TargetFile, l.fileInTarget, root) == Calls(t4, root);
    assert Actions(TargetDir, l.dirInTarget, root) == Calls(t5, root);
  }

  lemma TagMember(j: Kind, es: seq<Entry>, k: Kind, e: Entry)
    ensures (k, e) in Tag(j, es) <==> k == j && e in es
  {
    if k == j && e in es {
      var i :| 0 <= i < |es| && es[i] == e;
      assert Tag(j, es)[i] == (k, e);
    }
  }

  lemma TaggedMember(l: Lists, k: Kind, e: Entry)
    ensures (k, e) in Tagged(l) <==> e in l.Of(k)
  {
    TagMember(Modified, l.diffFilesList, k, e);
    TagMember(SourceFile, l.fileInSource, k, e);
    TagMember(SourceDir, l.dirInSource, k, e);
    TagMember(TargetFile, l.fileInTarget, k, e);
    TagMember(TargetDir, l.dirInTarget, k, e);
  }

  lemma DistinctConcat<T>(a: seq<T>, b: seq<T>)
    requires Distinct(a) && Distinct(b) && forall x | x in a :: x !in b
    ensures Distinct(a + b)
  {
    forall i, j | 0 <= i < j < |a + b| ensures (a + b)[i] != (a + b)[j] {
      if j < |a| {
      } else if i >= |a| {
        assert (a + b)[i] == b[i - |a|] && (a + b)[j] == b[j - |a|];
      } else {
        assert (a + b)[i] in a && (a + b)[j] in b;
      }
    }
  }

  lemma TagDistinct(k: Kind, es: seq<Entry>)
    requires Distinct(es)
    ensures Distinct(Tag(k, es)) && forall x | x in Tag(k, es) :: x.0 == k
  {
  }

  /** No record is visited twice. */
  lemma TaggedDistinct(disk: Disk, src: Path, tgt: Path)
    requires Open(disk, src, tgt).Ok?
    ensures Distinct(Tagged(Found(disk, src, tgt)))
  {
    var l, d := Found(disk, src, tgt), Open(disk, src, tgt).value;
    forall k ensures Distinct(l.Of(k)) {
      WalkNoRepeats(d, k);
    }
    var t1, t2, t3 := Tag(Modified, l.diffFilesList), Tag(SourceFile, l.fileInSource), Tag(SourceDir, l.dirInSource);
    var t4, t5 := Tag(TargetFile, l.fileInTarget), Tag(TargetDir, l.dirInTarget);
    TagDistinct(Modified, l.Of(Modified));
    TagDistinct(SourceFile, l.Of(SourceFile));
    TagDistinct(SourceDir, l.Of(SourceDir));
    TagDistinct(TargetFile, l.Of(TargetFile));
    TagDistinct(TargetDir, l.Of(TargetDir));
    DistinctConcat(t1, t2);
    DistinctConcat(t1 + t2, t3);
    DistinctConcat(t1 + t2 + t3, t4);
    DistinctConcat(t1 + t2 + t3 + t4, t5);
  }

  lemma CrossApart(src: Path, tgt: Path, p: Path, q: Path)
    requires Apart(src, tgt) && src <= p && tgt <= q
    ensures Apart(p, q) && Apart(q, p)
  {
    ApartBelow(src, p, tgt);
    ApartBelow(tgt, q, p);
  }

  lemma DirAbove(disk: Disk, p: Path, q: Path)
    ensures p <= q && IsDirAt(disk, q) ==> IsDirAt(disk, p)
  {
    if p <= q && p != q && IsDirAt(disk, q) {
      FindPrefix(Dir(disk), q, p);
    }
  }

  lemma MirrorParts(src: Path, tgt: Path, e: Entry)
    requires src <= e.sourcePath && e.targetPath == tgt + e.sourcePath[|src|..]
    ensures tgt <= Slot(e) && src <= Origin(e) && |tgt| < |Slot(e)|
    ensures Slot(e) == tgt + Origin(e)[|src|..] && Origin(e) == src + Slot(e)[|tgt|..]
  {
    MirrorPath(src, tgt, e);
    assert Slot(e)[|tgt|..] == Origin(e)[|src|..];
  }

  /**
   * The call `Overwrite` makes for a classified record cannot raise, writes
   * at the record's target path, and reads (for a copy) the record's
   * source path; a modified file must sit in the target root for this.
   */
  lemma EntryCall(disk: Disk, src: Path, tgt: Path, k: Kind, e: Entry)
    requires Classified(disk, src, tgt, k, e) && Apart(src, tgt)
    requires k == Modified ==> e.targetPath == tgt
    ensures var a := ActionFor(k, e, tgt);
      && Ready(disk, a) && Spot(a) == Slot(e)
      && (a.CopyFile? || a.CopyDir? ==> Source(a) == Origin(e) && Payload(disk, a) == At(disk, Origin(e)))
      && (a.RemoveFile? || a.RemoveDir? ==> Source(a) == Slot(e) && Payload(disk, a) == None && At(disk, Origin(e)) == None)
  {
    MirrorParts(src, tgt, e);
    CrossApart(src, tgt, Origin(e), Slot(e));
    assert Base(Origin(e)) == e.name;
    assert Parent(Slot(e)) == e.targetPath;
  }

  /** The same target path means the same record. */
  lemma SameSlot(disk: Disk, src: Path, tgt: Path, k1: Kind, e1: Entry, k2: Kind, e2: Entry)
    requires Classified(disk, src, tgt, k1, e1) && Classified(disk, src, tgt, k2, e2)
    ensures Slot(e1) == Slot(e2) ==> e1 == e2 && k1 == k2
  {
    if Slot(e1) == Slot(e2) {
      var r1, r2 := e1.sourcePath[|src|..], e2.sourcePath[|src|..];
      assert e1.name == Slot(e1)[|Slot(e1)| - 1] && e2.name == Slot(e2)[|Slot(e2)| - 1];
      assert e1.targetPath == Slot(e1)[..|Slot(e1)| - 1] && e2.targetPath == Slot(e2)[..|Slot(e2)| - 1];
      assert r1 == e1.targetPath[|tgt|..] && r2 == e2.targetPath[|tgt|..];
      assert e1.sourcePath == src + r1 && e2.sourcePath == src + r2;
    }
  }

  /** A classified record's target path lies above no other record's target path. */
  lemma InsideSlot(disk: Disk, src: Path, tgt: Path, k2: Kind, e1: Entry, e2: Entry)
    requires src <= e1.sourcePath && e1.targetPath == tgt + e1.sourcePath[|src|..]
    requires Classified(disk, src, tgt, k2, e2)
    ensures Slot(e1) <= Slot(e2) && Slot(e1) != Slot(e2) ==> IsDirAt(disk, Slot(e1)) && IsDirAt(disk, Origin(e1))
  {
    MirrorParts(src, tgt, e1);
    MirrorParts(src, tgt, e2);
    var w1, w2 := Slot(e1), Slot(e2);
    if w1 <= w2 && w1 != w2 {
      assert w1 <= e2.targetPath;
      var r1, r2 := w1[|tgt|..], e2.targetPath[|tgt|..];
      assert r1 <= r2;
      PrefixAppend(r1, r2, src);
      assert e2.sourcePath == src + r2;
      DirAbove(disk, w1, e2.targetPath);
      DirAbove(disk, Origin(e1), e2.sourcePath);
    }
  }

  /** Two records of the lists stand for target paths neither of which lies under the other. */
  lemma SlotsApart(disk: Disk, src: Path, tgt: Path, k1: Kind, e1: Entry, k2: Kind, e2: Entry)
    requires Classified(disk, src, tgt, k1, e1) && Classified(disk, src, tgt, k2, e2)
    requires (k1, e1) != (k2, e2)
    ensures Apart(Slot(e1), Slot(e2))
  {
    SameSlot(disk, src, tgt, k1, e1, k2, e2);
    InsideSlot(disk, src, tgt, k2, e1, e2);
    InsideSlot(disk, src, tgt, k1, e2, e1);
  }

  /**
   * The premise of convergence: two separate roots whose comparison
   * succeeds, and no modified file below the target root's top level.
   */
  ghost predicate TopLevel(disk: Disk, src: Path, tgt: Path)
  {
    Open(disk, src, tgt).Ok? && Apart(src, tgt)
    && forall e | e in Found(disk, src, tgt).diffFilesList :: e.targetPath == tgt
  }

  function Round(disk: Disk, src: Path, tgt: Path): seq<Action>
    requires Open(disk, src, tgt).Ok?
  {
    Plan(Found(disk, src, tgt), tgt)
  }

  /** Call `i` of the round is the call for tagged record `i`, which is classified. */
  lemma AtIndex(disk: Disk, src: Path, tgt: Path, i: nat)
    requires TopLevel(disk, src, tgt) && i < |Tagged(Found(disk, src, tgt))|
    ensures var t := Tagged(Found(disk, src, tgt))[i];
      && i < |Round(disk, src, tgt)| && Round(disk, src, tgt)[i] == ActionFor(t.0, t.1, tgt)
      && Classified(disk, src, tgt, t.0, t.1) && (t.0 == Modified ==> t.1.targetPath == tgt)
  {
    var l := Found(disk, src, tgt);
    var t := Tagged(l)[i];
    PlanIsCalls(l, tgt);
    TaggedMember(l, t.0, t.1);
    FoundClassified(disk, src, tgt, t.0, t.1);
  }

  lemma CallFacts(disk: Disk, src: Path, tgt: Path, i: nat)
    requires TopLevel(disk, src, tgt) && i < |Round(disk, src, tgt)|
    ensures var a, e := Round(disk, src, tgt)[i], Tagged(Found(disk, src, tgt))[i].1;
      && Ready(disk, a) && Spot(a) == Slot(e)
      && src <= e.sourcePath && e.targetPath == tgt + e.sourcePath[|src|..] && IsDirAt(disk, e.sourcePath)
      && (a.CopyFile? || a.CopyDir? ==> Source(a) == Origin(e) && Payload(disk, a) == At(disk, Origin(e)))
      && (a.RemoveFile? || a.RemoveDir? ==> Source(a) == Slot(e) && Payload(disk, a) == None && At(disk, Origin(e)) == None)
  {
    PlanIsCalls(Found(disk, src, tgt), tgt);
    AtIndex(disk, src, tgt, i);
    var t := Tagged(Found(disk, src, tgt))[i];
    EntryCall(disk, src, tgt, t.0, t.1);
  }

  /** Every call of the round is ready on the starting disk, and the calls do not interfere. */
  lemma RoundSeparate(disk: Disk, src: Path, tgt: Path)
    requires TopLevel(disk, src, tgt)
    ensures AllReady(disk, Round(disk, src, tgt)) && Separate(Round(disk, src, tgt))
  {
    var acts, ts := Round(disk, src, tgt), Tagged(Found(disk, src, tgt));
    PlanIsCalls(Found(disk, src, tgt), tgt);
    TaggedDistinct(disk, src, tgt);
    forall i | 0 <= i < |acts| ensures Ready(disk, acts[i]) {
      CallFacts(disk, src, tgt, i);
    }
    forall i, j | 0 <= i < j < |acts| ensures Apart(Spot(acts[i]), Spot(acts[j])) && Apart(Spot(acts[i]), Source(acts[j])) {
      AtIndex(disk, src, tgt, i);
      AtIndex(disk, src, tgt, j);
      CallFacts(disk, src, tgt, i);
      CallFacts(disk, src, tgt, j);
      SlotsApart(disk, src, tgt, ts[i].0, ts[i].1, ts[j].0, ts[j].1);
      MirrorParts(src, tgt, ts[i].1);
      MirrorParts(src, tgt, ts[j].1);
      CrossApart(src, tgt, Origin(ts[j].1), Slot(ts[i].1));
    }
  }

  /** The facts about one call of the round that the state after the round is read from. */
  ghost predicate Describes(disk: Disk, src: Path, tgt: Path, a: Action, e: Entry)
  {
    && Ready(disk, a) && Spot(a) == Slot(e)
    && src <= e.sourcePath && e.targetPath == tgt + e.sourcePath[|src|..] && IsDirAt(disk, e.sourcePath)
    && (a.CopyFile? || a.CopyDir? ==> Source(a) == Origin(e) && Payload(disk, a) == At(disk, Origin(e)))
    && (a.RemoveFile? || a.RemoveDir? ==> Source(a) == Slot(e) && Payload(disk, a) == None && At(disk, Origin(e)) == None)
  }

  ghost predicate DescribesAll(disk: Disk, src: Path, tgt: Path, acts: seq<Action>, es: seq<Entry>)
  {
    |acts| == |es| && forall i | 0 <= i < |acts| :: Describes(disk, src, tgt, acts[i], es[i])
  }

  /** Every record that holds on `disk` has a call writing at its target path. */
  ghost predicate Complete(disk: Disk, src: Path, tgt: Path, acts: seq<Action>)
  {
    forall k, e | Classified(disk, src, tgt, k, e) :: exists i | 0 <= i < |acts| :: Spot(acts[i]) == Slot(e)
  }

  /** What a call writes lies under the target root. */
  lemma SpotUnderTarget(disk: Disk, src: Path, tgt: Path, a: Action, e: Entry)
    requires Describes(disk, src, tgt, a, e)
    ensures tgt <= Spot(a) && |tgt| < |Spot(a)|
  {
    MirrorParts(src, tgt, e);
  }

  /** The calls write nothing under the source root. */
  lemma SourceSide(disk: Disk, src: Path, tgt: Path, acts: seq<Action>, es: seq<Entry>, d: Disk, p: Path)
    requires Apart(src, tgt) && DescribesAll(disk, src, tgt, acts, es) && Untouched(disk, acts, d)
    requires src <= p
    ensures At(d, p) == At(disk, p)
  {
    forall i | 0 <= i < |acts| ensures Apart(Spot(acts[i]), p) {
      SpotUnderTarget(disk, src, tgt, acts[i], es[i]);
      CrossApart(src, tgt, p, Spot(acts[i]));
    }
  }

  lemma SuffixSplit(t: Path, w: Path, q: Path)
    requires t <= w && w <= q
    ensures q[|t|..] == w[|t|..] + q[|w|..]
  {
  }

  /** Reading below a payload is reading below where it was copied from. */
  lemma PayloadBelow(disk: Disk, src: Path, tgt: Path, a: Action, e: Entry, ys: Path)
    requires Describes(disk, src, tgt, a, e)
    ensures Under(Payload(disk, a), ys) == At(disk, Origin(e) + ys)
  {
    FindAppend(Dir(disk), Origin(e), ys);
  }

  /** At and below a written path, the target now holds what the source holds at the same place. */
  lemma Covered(disk: Disk, src: Path, tgt: Path, a: Action, e: Entry, d: Disk, q: Path)
    requires Describes(disk, src, tgt, a, e) && Spot(a) <= q
    requires At(d, q) == Under(Payload(disk, a), q[|Spot(a)|..])
    ensures tgt <= q && At(d, q) == At(disk, src + q[|tgt|..])
  {
    MirrorParts(src, tgt, e);
    var w, ys := Slot(e), q[|Slot(e)|..];
    PrefixTrans(tgt, w, q);
    SuffixSplit(tgt, w, q);
    assert src + q[|tgt|..] == (src + w[|tgt|..]) + ys;
    PayloadBelow(disk, src, tgt, a, e, ys);
  }

  /** Strictly above a written path, the source holds a directory. */
  lemma Inner(disk: Disk, src: Path, tgt: Path, a: Action, e2: Entry, e: Entry)
    requires Describes(disk, src, tgt, a, e2)
    requires src <= e.sourcePath && e.targetPath == tgt + e.sourcePath[|src|..]
    requires Slot(e) <= Spot(a) && Slot(e) != Spot(a)
    ensures IsDirAt(disk, Origin(e))
  {
    MirrorParts(src, tgt, e);
    MirrorParts(src, tgt, e2);
    var r1, r2 := Slot(e)[|tgt|..], e2.targetPath[|tgt|..];
    assert Slot(e) <= e2.targetPath;
    assert r1 <= r2;
    PrefixAppend(r1, r2, src);
    assert e2.sourcePath == src + r2;
    DirAbove(disk, Origin(e), e2.sourcePath);
  }

  /** Away from every written path, a parent directory afterwards was one before. */
  lemma Away(disk: Disk, acts: seq<Action>, d: Disk, tp: Path, q: Path)
    requires AllReady(disk, acts) && Untouched(disk, acts, d) && Above(acts, d)
    requires AwayFrom(acts, q) && tp <= q
    ensures IsDirAt(d, tp) ==> IsDirAt(disk, tp)
  {
    if !AwayFrom(acts, tp) {
      var i :| 0 <= i < |acts| && !Apart(Spot(acts[i]), tp);
      if Spot(acts[i]) <= tp {
        PrefixTrans(Spot(acts[i]), tp, q);
        assert false;
      }
      ReadyParent(disk, acts[i]);
      assert tp <= Parent(Spot(acts[i]));
      DirAbove(disk, tp, Parent(Spot(acts[i])));
    }
  }

  /** A record that holds on the starting disk has its call in the round. */
  lemma Listed(disk: Disk, src: Path, tgt: Path)
    requires TopLevel(disk, src, tgt)
    ensures Complete(disk, src, tgt, Round(disk, src, tgt))
  {
    var ts := Tagged(Found(disk, src, tgt));
    forall k, e | Classified(disk, src, tgt, k, e)
      ensures exists i | 0 <= i < |Round(disk, src, tgt)| :: Spot(Round(disk, src, tgt)[i]) == Slot(e)
    {
      FoundClassified(disk, src, tgt, k, e);
      TaggedMember(Found(disk, src, tgt), k, e);
      var i :| 0 <= i < |ts| && ts[i] == (k, e);
      CallFacts(disk, src, tgt, i);
    }
  }

  lemma KindOfSame(s: Shape)
    ensures KindOf(s, s) == None
  {
  }

  /** The state after calls that are ready, separate, described and complete. */
  ghost predicate Between(disk: Disk, src: Path, tgt: Path, acts: seq<Action>, es: seq<Entry>, d: Disk)
  {
    Apart(src, tgt) && AllReady(disk, acts) && DescribesAll(disk, src, tgt, acts, es) && Complete(disk, src, tgt, acts)
    && Untouched(disk, acts, d) && Written(disk, acts, d) && Above(acts, d)
  }

  lemma NothingCovered(disk: Disk, src: Path, tgt: Path, acts: seq<Action>, es: seq<Entry>, d: Disk, i: nat, k: Kind, e: Entry)
    requires Between(disk, src, tgt, acts, es, d) && i < |acts|
    requires src <= e.sourcePath && e.targetPath == tgt + e.sourcePath[|src|..]
    requires Spot(acts[i]) <= Slot(e)
    ensures !Classified(d, src, tgt, k, e)
  {
    MirrorParts(src, tgt, e);
    Covered(disk, src, tgt, acts[i], es[i], d, Slot(e));
    SourceSide(disk, src, tgt, acts, es, d, Origin(e));
    KindOfSame(ShapeOf(At(d, Slot(e))));
  }

  lemma NothingInner(disk: Disk, src: Path, tgt: Path, acts: seq<Action>, es: seq<Entry>, d: Disk, i: nat, k: Kind, e: Entry)
    requires Between(disk, src, tgt, acts, es, d) && i < |acts|
    requires src <= e.sourcePath && e.targetPath == tgt + e.sourcePath[|src|..]
    requires Slot(e) <= Spot(acts[i]) && Slot(e) != Spot(acts[i])
    ensures !Classified(d, src, tgt, k, e)
  {
    MirrorParts(src, tgt, e);
    assert Describes(disk, src, tgt, acts[i], es[i]);
    Inner(disk, src, tgt, acts[i], es[i], e);
    SourceSide(disk, src, tgt, acts, es, d, Origin(e));
    assert IsDirAt(d, Slot(e));
    DirsNotClassified(d, src, tgt, k, e);
  }

  /** A name that is a directory on both sides is in no list. */
  lemma DirsNotClassified(d: Disk, src: Path, tgt: Path, k: Kind, e: Entry)
    requires IsDirAt(d, Slot(e)) && IsDirAt(d, Origin(e))
    ensures !Classified(d, src, tgt, k, e)
  {
    assert ShapeOf(At(d, Slot(e))) == DirShape && ShapeOf(At(d, Origin(e))) == DirShape;
  }

  lemma NothingAway(disk: Disk, src: Path, tgt: Path, acts: seq<Action>, es: seq<Entry>, d: Disk, k: Kind, e: Entry)
    requires Between(disk, src, tgt, acts, es, d)
    requires src <= e.sourcePath && e.targetPath == tgt + e.sourcePath[|src|..]
    requires AwayFrom(acts, Slot(e))
    ensures !Classified(d, src, tgt, k, e)
  {
    MirrorParts(src, tgt, e);
    SourceSide(disk, src, tgt, acts, es, d, Origin(e));
    SourceSide(disk, src, tgt, acts, es, d, e.sourcePath);
    Away(disk, acts, d, e.targetPath, Slot(e));
    assert Classified(d, src, tgt, k, e) ==> Classified(disk, src, tgt, k, e);
  }

  /** After the calls, no record holds: whatever is under a name on one side is on the other. */
  lemma NothingLeft(disk: Disk, src: Path, tgt: Path, acts: seq<Action>, es: seq<Entry>, d: Disk, k: Kind, e: Entry)
    requires Between(disk, src, tgt, acts, es, d)
    ensures !Classified(d, src, tgt, k, e)
  {
    if src <= e.sourcePath && e.targetPath == tgt + e.sourcePath[|src|..] {
      var q := Slot(e);
      if exists i | 0 <= i < |acts| :: Spot(acts[i]) <= q {
        var i :| 0 <= i < |acts| && Spot(acts[i]) <= q;
        NothingCovered(disk, src, tgt, acts, es, d, i, k, e);
      } else if exists i | 0 <= i < |acts| :: q <= Spot(acts[i]) {
        var i :| 0 <= i < |acts| && q <= Spot(acts[i]);
        NothingInner(disk, src, tgt, acts, es, d, i, k, e);
      } else {
        NothingAway(disk, src, tgt, acts, es, d, k, e);
      }
    }
  }

  lemma RoundDescribed(disk: Disk, src: Path, tgt: Path)
    requires TopLevel(disk, src, tgt)
    ensures DescribesAll(disk, src, tgt, Round(disk, src, tgt), Entries(Found(disk, src, tgt)))
  {
    PlanIsCalls(Found(disk, src, tgt), tgt);
    forall i | 0 <= i < |Round(disk, src, tgt)|
      ensures Describes(disk, src, tgt, Round(disk, src, tgt)[i], Entries(Found(disk, src, tgt))[i])
    {
      CallFacts(disk, src, tgt, i);
    }
  }

  lemma NoMembers(s: seq<Entry>)
    ensures (forall x :: x !in s) ==> s == []
  {
    if s != [] {
      assert s[0] in s;
    }
  }

  /** The round runs to its end and leaves the state the calls describe. */
  lemma RoundRuns(disk: Disk, src: Path, tgt: Path)
    requires TopLevel(disk, src, tgt)
    ensures var r := Apply(disk, Round(disk, src, tgt));
      r.Done? && Between(disk, src, tgt, Round(disk, src, tgt), Entries(Found(disk, src, tgt)), r.disk)
  {
    RoundSeparate(disk, src, tgt);
    RoundDescribed(disk, src, tgt);
    Listed(disk, src, tgt);
    ApplySeparate(disk, Round(disk, src, tgt));
  }

  /** The target root is still a directory afterwards, so the roots can be compared again. */
  lemma RootsRemain(disk: Disk, src: Path, tgt: Path, acts: seq<Action>, es: seq<Entry>, d: Disk)
    requires Between(disk, src, tgt, acts, es, d) && IsDirAt(disk, src) && IsDirAt(disk, tgt)
    ensures Open(d, src, tgt).Ok?
  {
    forall i | 0 <= i < |acts| ensures !(Spot(acts[i]) <= tgt) {
      SpotUnderTarget(disk, src, tgt, acts[i], es[i]);
    }
    DirStays(disk, acts, d, tgt);
    SourceSide(disk, src, tgt, acts, es, d, src);
  }

  lemma NoneClassified(disk: Disk, src: Path, tgt: Path, acts: seq<Action>, es: seq<Entry>, d: Disk)
    requires Between(disk, src, tgt, acts, es, d)
    ensures forall k, e :: !Classified(d, src, tgt, k, e)
  {
    forall k, e ensures !Classified(d, src, tgt, k, e) {
      NothingLeft(disk, src, tgt, acts, es, d, k, e);
    }
  }

  lemma NothingFoundOf(d: Disk, src: Path, tgt: Path, k: Kind)
    requires Open(d, src, tgt).Ok?
    requires forall k, e :: !Classified(d, src, tgt, k, e)
    ensures Found(d, src, tgt).Of(k) == []
  {
    forall e ensures e !in Found(d, src, tgt).Of(k) {
      FoundClassified(d, src, tgt, k, e);
    }
    NoMembers(Found(d, src, tgt).Of(k));
  }

  /** A comparison with no record that holds fills none of the five lists. */
  lemma NothingFound(d: Disk, src: Path, tgt: Path)
    requires Open(d, src, tgt).Ok?
    requires forall k, e :: !Classified(d, src, tgt, k, e)
    ensures Found(d, src, tgt) == NoLists
  {
    NothingFoundOf(d, src, tgt, Modified);
    NothingFoundOf(d, src, tgt, SourceFile);
    NothingFoundOf(d, src, tgt, TargetFile);
    NothingFoundOf(d, src, tgt, SourceDir);
    NothingFoundOf(d, src, tgt, TargetDir);
  }

  /**
   * One round of `diff_files` and `Overwrite` on separate roots with every
   * modified file at the top level raises nothing, leaves all five lists
   * empty, leaves the source as it was, and a fresh comparison of the two
   * roots then reports nothing at all.
   */
  lemma Converges(disk: Disk, src: Path, tgt: Path)
    requires TopLevel(disk, src, tgt)
    ensures var o := Reconcile(disk, Found(disk, src, tgt), tgt);
      && o.raised == None && o.lists == NoLists
      && (forall p | src <= p :: At(o.disk, p) == At(disk, p))
      && Open(o.disk, src, tgt).Ok? && Found(o.disk, src, tgt) == NoLists
  {
    var acts, es := Round(disk, src, tgt), Entries(Found(disk, src, tgt));
    RoundRuns(disk, src, tgt);
    var d := Apply(disk, acts).disk;
    ReconcileRunsPlan(disk, Found(disk, src, tgt), tgt);
    forall p | src <= p ensures At(d, p) == At(disk, p) {
      SourceSide(disk, src, tgt, acts, es, d, p);
    }
    RootsRemain(disk, src, tgt, acts, es, d);
    NoneClassified(disk, src, tgt, acts, es, d);
    NothingFound(d, src, tgt);
  }
}
