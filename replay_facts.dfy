/**
 * What `Overwrite` does, stated against the flat sequence of library calls
 * it makes: the calls come list by list in a fixed order, the first
 * exception ends everything, each list is cleared once all its calls have
 * run, and no call reaches outside the target tree.
 */
module ReplayFacts {
  import opened Wrappers
  import opened FileSystem
  import opened DirCompare
  import opened Sync
  import opened WalkFacts

  /** The order in which `Overwrite` handles the five lists. */
  function Phase(g: nat): Kind
    requires g < 5
  {
    if g == 0 then Modified
    else if g == 1 then SourceFile
    else if g == 2 then SourceDir
    else if g == 3 then TargetFile
    else TargetDir
  }

  /** The calls for the lists of the first `g` phases. */
  function PlanUpTo(l: Lists, g: nat, root: Path): seq<Action>
    requires g <= 5
  {
    if g == 0 then [] else PlanUpTo(l, g - 1, root) + Actions(Phase(g - 1), l.Of(Phase(g - 1)), root)
  }

  /** Where the calls of phase `h` start in the plan. */
  function Offset(l: Lists, h: nat): nat
    requires h <= 5
  {
    if h == 0 then 0 else Offset(l, h - 1) + |l.Of(Phase(h - 1))|
  }

  lemma PlanIsPlanUpTo(l: Lists, root: Path)
    ensures Plan(l, root) == PlanUpTo(l, 5, root)
  {
    assert PlanUpTo(l, 1, root) == Actions(Modified, l.diffFilesList, root);
    assert PlanUpTo(l, 2, root) == PlanUpTo(l, 1, root) + Actions(SourceFile, l.fileInSource, root);
    assert PlanUpTo(l, 3, root) == PlanUpTo(l, 2, root) + Actions(SourceDir, l.dirInSource, root);
    assert PlanUpTo(l, 4, root) == PlanUpTo(l, 3, root) + Actions(TargetFile, l.fileInTarget, root);
    assert PlanUpTo(l, 5, root) == PlanUpTo(l, 4, root) + Actions(TargetDir, l.dirInTarget, root);
  }

  lemma {:induction false} OffsetIsLength(l: Lists, g: nat, root: Path)
    requires g <= 5
    ensures |PlanUpTo(l, g, root)| == Offset(l, g)
  {
    if g > 0 {
      OffsetIsLength(l, g - 1, root);
    }
  }

  lemma {:induction false} OffsetMonotone(l: Lists, g: nat, h: nat)
    requires g <= h <= 5
    ensures Offset(l, g) <= Offset(l, h)
    decreases h - g
  {
    if g < h {
      OffsetMonotone(l, g, h - 1);
    }
  }

  lemma {:induction false} PlanUpToPrefix(l: Lists, g: nat, h: nat, root: Path)
    requires g <= h <= 5
    ensures PlanUpTo(l, g, root) <= PlanUpTo(l, h, root)
    decreases h - g
  {
    if g < h {
      PlanUpToPrefix(l, g, h - 1, root);
      var p, q := PlanUpTo(l, g, root), PlanUpTo(l, h - 1, root);
      var a := Actions(Phase(h - 1), l.Of(Phase(h - 1)), root);
      assert PlanUpTo(l, h, root) == q + a;
      assert (q + a)[..|p|] == q[..|p|];
    }
  }

  /**
   * The order `Overwrite` acts in: the plan is the calls for the modified
   * files, then for the source-only files, the source-only directories,
   * the target-only files and the target-only directories, each block in
   * list order.
   */
  lemma PlanBlocks(l: Lists, root: Path, h: nat)
    requires h < 5
    ensures Offset(l, h) <= Offset(l, h + 1) <= |Plan(l, root)|
    ensures Plan(l, root)[Offset(l, h)..Offset(l, h + 1)] == Actions(Phase(h), l.Of(Phase(h)), root)
  {
    PlanIsPlanUpTo(l, root);
    PlanUpToPrefix(l, h + 1, 5, root);
    OffsetIsLength(l, h, root);
    OffsetIsLength(l, h + 1, root);
    OffsetIsLength(l, 5, root);
    var p, a := PlanUpTo(l, h, root), Actions(Phase(h), l.Of(Phase(h)), root);
    assert PlanUpTo(l, h + 1, root) == p + a;
    SliceOfPrefix(Plan(l, root), p, a);
  }

  lemma SliceOfPrefix(full: seq<Action>, p: seq<Action>, a: seq<Action>)
    requires p + a <= full
    ensures |p| + |a| <= |full| && full[|p|..|p| + |a|] == a
  {
    assert full[..|p + a|] == p + a;
    assert (p + a)[|p|..|p + a|] == a;
  }

  /** A run is cut short by the error of one call; the index is shifted past `n` earlier calls. */
  function Shift(r: Run, n: nat): (s: Run)
    ensures s.disk == r.disk && Raised(s) == Raised(r)
  {
    if r.Aborted? then r.(at := r.at + n) else r
  }

  /** Running `a + b` is running `a`, then, unless that raised, running `b`. */
  lemma {:induction false} ApplyConcat(disk: Disk, a: seq<Action>, b: seq<Action>)
    ensures Apply(disk, a + b) == match Apply(disk, a)
      case Aborted(_, _, _) => Apply(disk, a)
      case Done(d) => Shift(Apply(d, b), |a|)
    decreases |a|
  {
    if a == [] {
      assert a + b == b;
    } else {
      assert (a + b)[1..] == a[1..] + b;
      assert (a + b)[0] == a[0];
      if Step(disk, a[0]).Ok? {
        ApplyConcat(Step(disk, a[0]).value, a[1..], b);
      }
    }
  }

  /** `Overwrite` through its first `g` phases. */
  function ReplayUpTo(disk: Disk, l: Lists, g: nat, root: Path): Outcome
    requires g <= 5
  {
    if g == 0 then Outcome(disk, l, None) else ReplayList(ReplayUpTo(disk, l, g - 1, root), Phase(g - 1), root)
  }

  lemma ReconcileIsReplayUpTo(disk: Disk, l: Lists, root: Path)
    ensures Reconcile(disk, l, root) == ReplayUpTo(disk, l, 5, root)
  {
    assert ReplayUpTo(disk, l, 1, root) == ReplayList(Outcome(disk, l, None), Modified, root);
    assert ReplayUpTo(disk, l, 2, root) == ReplayList(ReplayUpTo(disk, l, 1, root), SourceFile, root);
    assert ReplayUpTo(disk, l, 3, root) == ReplayList(ReplayUpTo(disk, l, 2, root), SourceDir, root);
    assert ReplayUpTo(disk, l, 4, root) == ReplayList(ReplayUpTo(disk, l, 3, root), TargetFile, root);
  }

  /** What list `h` holds after the first `g` phases, when running their calls went as `r` did. */
  function LeftIn(l: Lists, g: nat, h: nat, r: Run): seq<Entry>
    requires g <= 5 && h < 5
  {
    if h < g && (r.Done? || r.at >= Offset(l, h + 1)) then [] else l.Of(Phase(h))
  }

  lemma PhasesDistinct(g: nat, h: nat)
    requires g < 5 && h < 5 && g != h
    ensures Phase(g) != Phase(h)
  {
  }

  lemma {:induction false} ReplayUpToRuns(disk: Disk, l: Lists, g: nat, root: Path)
    requires g <= 5
    ensures var o, r := ReplayUpTo(disk, l, g, root), Apply(disk, PlanUpTo(l, g, root));
      o.disk == r.disk && o.raised == Raised(r)
      && forall h | 0 <= h < 5 :: o.lists.Of(Phase(h)) == LeftIn(l, g, h, r)
  {
    if g > 0 {
      ReplayUpToRuns(disk, l, g - 1, root);
      var prev, p := ReplayUpTo(disk, l, g - 1, root), PlanUpTo(l, g - 1, root);
      var k := Phase(g - 1);
      var a := Actions(k, l.Of(k), root);
      ApplyConcat(disk, p, a);
      OffsetIsLength(l, g - 1, root);
      if Apply(disk, p).Done? {
        NextPhase(disk, l, g, root);
      } else {
        ApplyStopsInside(disk, p);
        RaisedEarlier(l, g, Apply(disk, p));
      }
    }
  }

  /** A run that raised before phase `g` leaves list `g - 1` as it was. */
  lemma RaisedEarlier(l: Lists, g: nat, r: Run)
    requires 0 < g <= 5 && r.Aborted? && r.at < Offset(l, g - 1)
    ensures forall h | 0 <= h < 5 :: LeftIn(l, g - 1, h, r) == LeftIn(l, g, h, r)
  {
  }

  lemma ApplyStopsInside(disk: Disk, acts: seq<Action>)
    requires Apply(disk, acts).Aborted?
    ensures Apply(disk, acts).at < |acts|
  {
  }

  /** Phase `g` after phases up to `g - 1` ran without an exception. */
  lemma NextPhase(disk: Disk, l: Lists, g: nat, root: Path)
    requires 0 < g <= 5
    requires var o, r := ReplayUpTo(disk, l, g - 1, root), Apply(disk, PlanUpTo(l, g - 1, root));
      r.Done? && o.disk == r.disk && o.raised == None
      && forall h | 0 <= h < 5 :: o.lists.Of(Phase(h)) == LeftIn(l, g - 1, h, r)
    requires |PlanUpTo(l, g - 1, root)| == Offset(l, g - 1)
    ensures var o, r := ReplayUpTo(disk, l, g, root), Apply(disk, PlanUpTo(l, g, root));
      o.disk == r.disk && o.raised == Raised(r)
      && forall h | 0 <= h < 5 :: o.lists.Of(Phase(h)) == LeftIn(l, g, h, r)
  {
    var prev, p := ReplayUpTo(disk, l, g - 1, root), PlanUpTo(l, g - 1, root);
    var k := Phase(g - 1);
    var a := Actions(k, l.Of(k), root);
    ApplyConcat(disk, p, a);
    assert prev.lists.Of(k) == l.Of(k);
    var ra := Apply(prev.disk, a);
    if ra.Done? {
      AfterPhaseDone(l, g, prev.lists, Apply(disk, p), Apply(disk, p + a));
    } else {
      AfterPhaseAborted(l, g, prev.lists, Apply(disk, p), ra.at, Apply(disk, p + a));
    }
  }

  /** A phase whose calls all ran clears its list and nothing else. */
  lemma AfterPhaseDone(l: Lists, g: nat, prev: Lists, r0: Run, r: Run)
    requires 0 < g <= 5 && r0.Done? && r.Done?
    requires forall h | 0 <= h < 5 :: prev.Of(Phase(h)) == LeftIn(l, g - 1, h, r0)
    ensures forall h | 0 <= h < 5 :: Clear(prev, Phase(g - 1)).Of(Phase(h)) == LeftIn(l, g, h, r)
  {
    forall h | 0 <= h < 5 && h != g - 1 ensures Clear(prev, Phase(g - 1)).Of(Phase(h)) == prev.Of(Phase(h)) {
      PhasesDistinct(g - 1, h);
    }
  }

  /** A phase whose call number `at` raised leaves every list as it was. */
  lemma AfterPhaseAborted(l: Lists, g: nat, prev: Lists, r0: Run, at: nat, r: Run)
    requires 0 < g <= 5 && r0.Done? && r.Aborted?
    requires at < |l.Of(Phase(g - 1))| && r.at == Offset(l, g - 1) + at
    requires forall h | 0 <= h < 5 :: prev.Of(Phase(h)) == LeftIn(l, g - 1, h, r0)
    ensures forall h | 0 <= h < 5 :: prev.Of(Phase(h)) == LeftIn(l, g, h, r)
  {
    forall h | 1 <= h < g ensures Offset(l, h) <= Offset(l, g - 1) {
      OffsetMonotone(l, h, g - 1);
    }
  }

  lemma NoneLeft(x: Lists)
    requires forall h | 0 <= h < 5 :: x.Of(Phase(h)) == []
    ensures x == NoLists
  {
    assert x.Of(Phase(0)) == [] && x.Of(Phase(1)) == [] && x.Of(Phase(2)) == [];
    assert x.Of(Phase(3)) == [] && x.Of(Phase(4)) == [];
  }

  /**
   * `Overwrite` makes the calls of the plan in order and stops at the first
   * exception. On normal completion all five lists are empty; after an
   * exception exactly the lists whose calls all ran are empty and the rest
   * keep their entries.
   */
  lemma ReconcileRunsPlan(disk: Disk, l: Lists, root: Path)
    ensures var o, r := Reconcile(disk, l, root), Apply(disk, Plan(l, root));
      o.disk == r.disk && o.raised == Raised(r)
      && (r.Done? ==> o.lists == NoLists)
      && (r.Aborted? ==> forall h | 0 <= h < 5 ::
            o.lists.Of(Phase(h)) == if r.at < Offset(l, h + 1) then l.Of(Phase(h)) else [])
  {
    ReconcileIsReplayUpTo(disk, l, root);
    PlanIsPlanUpTo(l, root);
    ReplayUpToRuns(disk, l, 5, root);
    if Apply(disk, Plan(l, root)).Done? {
      NoneLeft(Reconcile(disk, l, root).lists);
    }
  }

  /** A run that raised ran every call before the failing one, and nothing after it. */
  lemma {:induction false} ApplyStops(disk: Disk, acts: seq<Action>)
    requires Apply(disk, acts).Aborted?
    ensures var r := Apply(disk, acts);
      Apply(disk, acts[..r.at]) == Done(r.disk) && Step(r.disk, acts[r.at]) == Err(r.error)
    decreases |acts|
  {
    var r := Apply(disk, acts);
    if Step(disk, acts[0]).Ok? {
      var next := Step(disk, acts[0]).value;
      ApplyStops(next, acts[1..]);
      assert acts[..r.at][1..] == acts[1..][..r.at - 1];
    } else {
      assert acts[..0] == [];
    }
  }

  /** Neither path lies under the other. */
  predicate Apart(p: Path, q: Path)
  {
    !(p <= q) && !(q <= p)
  }

  lemma ApartBelow(t: Path, w: Path, q: Path)
    requires Apart(t, q) && t <= w
    ensures Apart(w, q)
  {
  }

  /** The path under which a call may change anything. */
  function Dst(a: Action): Path
  {
    match a
    case CopyFile(_, t) => t
    case CopyDir(_, t) => t
    case RemoveFile(p) => p
    case RemoveDir(p) => p
  }

  lemma PutAtApart(disk: Disk, p: Path, v: Option<Node>, q: Path)
    requires p != [] && IsDirAt(disk, Parent(p)) && Apart(p, q)
    ensures At(PutAt(disk, p, v), q) == At(disk, q)
  {
    PutAtIsPut(disk, p, v);
    FindPutApart(Dir(disk), p, v, q);
  }

  /** A call changes nothing away from its destination. */
  lemma StepFrame(disk: Disk, a: Action, q: Path)
    requires Step(disk, a).Ok? && Apart(Dst(a), q)
    ensures At(Step(disk, a).value, q) == At(disk, q)
  {
    match a
    case CopyFile(s, t) =>
      CopyEffect(disk, s, t);
      ApartBelow(t, CopyDest(disk, s, t), q);
    case CopyDir(s, t) => CopyTreeEffect(disk, s, t);
    case RemoveFile(p) => RemoveEffect(disk, p);
    case RemoveDir(p) => RemoveTreeEffect(disk, p);
  }

  /** Hence a run, finished or not, changes nothing away from all of its calls' destinations. */
  lemma {:induction false} ApplyFrame(disk: Disk, acts: seq<Action>, q: Path)
    requires forall a | a in acts :: Apart(Dst(a), q)
    ensures At(Apply(disk, acts).disk, q) == At(disk, q)
    decreases |acts|
  {
    if acts != [] && Step(disk, acts[0]).Ok? {
      StepFrame(disk, acts[0], q);
      assert forall a | a in acts[1..] :: a in acts;
      ApplyFrame(Step(disk, acts[0]).value, acts[1..], q);
    }
  }

  lemma ActionsMember(k: Kind, es: seq<Entry>, root: Path, a: Action)
    requires a in Actions(k, es, root)
    ensures exists e | e in es :: a == ActionFor(k, e, root)
  {
    var i :| 0 <= i < |es| && Actions(k, es, root)[i] == a;
    assert es[i] in es;
  }

  /** Every call of the plan is the call for some entry of some list. */
  lemma PlanMember(l: Lists, root: Path, a: Action)
    requires a in Plan(l, root)
    ensures exists k, e | e in l.Of(k) :: a == ActionFor(k, e, root)
  {
    var k: Kind :| a in Actions(k, l.Of(k), root);
    ActionsMember(k, l.Of(k), root, a);
  }

  /**
   * What the source tree justifies each call with: a removal names an
   * entry the target has and the source lacks; a copy reads the source
   * entry and writes it under the same name, into the target root for a
   * modified file and into the matching directory otherwise.
   */
  ghost predicate Justified(disk: Disk, src: Path, tgt: Path, a: Action)
  {
    match a
    case RemoveFile(p) => tgt <= p && IsFileAt(disk, p) && At(disk, src + p[|tgt|..]) == None
    case RemoveDir(p) => tgt <= p && IsDirAt(disk, p) && At(disk, src + p[|tgt|..]) == None
    case CopyFile(s, t) =>
      src < s && IsFileAt(disk, s) && IsDirAt(disk, t)
      && var mirror := tgt + s[|src|..];
         (t == tgt && IsFileAt(disk, mirror) && At(disk, mirror) != At(disk, s))
         || (t == Parent(mirror) && At(disk, mirror) == None)
    case CopyDir(s, t) => src < s && IsDirAt(disk, s) && t == tgt + s[|src|..] && At(disk, t) == None
  }

  lemma MirrorPath(src: Path, tgt: Path, e: Entry)
    requires src <= e.sourcePath && e.targetPath == tgt + e.sourcePath[|src|..]
    ensures tgt + (e.sourcePath + [e.name])[|src|..] == e.targetPath + [e.name]
    ensures src < e.sourcePath + [e.name]
  {
    assert (e.sourcePath + [e.name])[|src|..] == e.sourcePath[|src|..] + [e.name];
  }

  lemma ActionJustified(disk: Disk, src: Path, tgt: Path, k: Kind, e: Entry)
    requires Open(disk, src, tgt).Ok? && Classified(disk, src, tgt, k, e)
    ensures Justified(disk, src, tgt, ActionFor(k, e, tgt))
  {
    MirrorPath(src, tgt, e);
    var p := e.targetPath + [e.name];
    assert Parent(p) == e.targetPath;
    assert tgt <= e.targetPath;
    assert (tgt + e.sourcePath[|src|..] + [e.name])[|tgt|..] == e.sourcePath[|src|..] + [e.name];
    assert src + (e.sourcePath[|src|..] + [e.name]) == e.sourcePath + [e.name];
  }

  /**
   * `Overwrite` after `diff_files` deletes only entries only the target
   * has, and writes only copies of source entries of the same name.
   */
  lemma PlanJustified(disk: Disk, src: Path, tgt: Path)
    requires Open(disk, src, tgt).Ok?
    ensures forall a | a in Plan(Found(disk, src, tgt), tgt) :: Justified(disk, src, tgt, a)
  {
    forall a | a in Plan(Found(disk, src, tgt), tgt) ensures Justified(disk, src, tgt, a) {
      PlanMember(Found(disk, src, tgt), tgt, a);
      var k, e :| e in Found(disk, src, tgt).Of(k) && a == ActionFor(k, e, tgt);
      FoundClassified(disk, src, tgt, k, e);
      ActionJustified(disk, src, tgt, k, e);
    }
  }

  lemma ActionUnderTarget(disk: Disk, src: Path, tgt: Path, k: Kind, e: Entry)
    requires Classified(disk, src, tgt, k, e)
    ensures tgt <= Dst(ActionFor(k, e, tgt))
  {
    assert tgt <= e.targetPath;
  }

  /** Every call of the plan after `diff_files` has its destination under the target root. */
  lemma PlanUnderTarget(disk: Disk, src: Path, tgt: Path)
    requires Open(disk, src, tgt).Ok?
    ensures forall a | a in Plan(Found(disk, src, tgt), tgt) :: tgt <= Dst(a)
  {
    forall a | a in Plan(Found(disk, src, tgt), tgt) ensures tgt <= Dst(a) {
      PlanMember(Found(disk, src, tgt), tgt, a);
      var k, e :| e in Found(disk, src, tgt).Of(k) && a == ActionFor(k, e, tgt);
      FoundClassified(disk, src, tgt, k, e);
      ActionUnderTarget(disk, src, tgt, k, e);
    }
  }

  /**
   * When neither root lies inside the other, `Overwrite` after
   * `diff_files` leaves everything under the source root as it was,
   * whether it completes or raises.
   */
  lemma SourceUntouched(disk: Disk, src: Path, tgt: Path, q: Path)
    requires Open(disk, src, tgt).Ok? && Apart(src, tgt) && src <= q
    ensures At(Reconcile(disk, Found(disk, src, tgt), tgt).disk, q) == At(disk, q)
  {
    var l := Found(disk, src, tgt);
    ReconcileRunsPlan(disk, l, tgt);
    PlanUnderTarget(disk, src, tgt);
    ApartBelow(src, q, tgt);
    forall a | a in Plan(l, tgt) ensures Apart(Dst(a), q) {
      ApartBelow(tgt, Dst(a), q);
    }
    ApplyFrame(disk, Plan(l, tgt), q);
  }
}
