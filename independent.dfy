/**
 * Calls that write at pairwise separate places and read only away from
 * each other's writes do not interfere: run one after another, each does
 * what it would have done on the starting filesystem.
 */
module Independent {
  import opened Wrappers
  import opened FileSystem
  import opened Sync
  import opened ReplayFacts

  /** Where a call that succeeds puts its result. */
  function Spot(a: Action): Path
  {
    match a
    case CopyFile(s, t) => if s == [] then t else t + [Base(s)]
    case CopyDir(_, t) => t
    case RemoveFile(p) => p
    case RemoveDir(p) => p
  }

  /** What a call reads: the entry it copies, or the one it removes. */
  function Source(a: Action): Path
  {
    match a
    case CopyFile(s, _) => s
    case CopyDir(s, _) => s
    case RemoveFile(p) => p
    case RemoveDir(p) => p
  }

  /** What a call puts at its spot: a copy of its source, or nothing. */
  function Payload(disk: Disk, a: Action): Option<Node>
  {
    match a
    case CopyFile(s, _) => At(disk, s)
    case CopyDir(s, _) => At(disk, s)
    case RemoveFile(_) => None
    case RemoveDir(_) => None
  }

  /** The call cannot raise on `disk`; in particular its target directory exists. */
  ghost predicate Ready(disk: Disk, a: Action)
  {
    match a
    case CopyFile(s, t) =>
      IsFileAt(disk, s) && IsDirAt(disk, t) && t + [Base(s)] != s && !IsDirAt(disk, t + [Base(s)])
    case CopyDir(s, t) => IsDirAt(disk, s) && t != [] && At(disk, t) == None && IsDirAt(disk, Parent(t))
    case RemoveFile(p) => IsFileAt(disk, p)
    case RemoveDir(p) => p != [] && IsDirAt(disk, p)
  }

  lemma ReadyParent(disk: Disk, a: Action)
    requires Ready(disk, a)
    ensures Spot(a) != [] && IsDirAt(disk, Parent(Spot(a)))
  {
    match a
    case CopyFile(s, t) =>
      assert s != [];
      assert Parent(t + [Base(s)]) == t;
    case CopyDir(_, _) =>
    case RemoveFile(p) => ParentExists(disk, p);
    case RemoveDir(p) => ParentExists(disk, p);
  }

  /** A ready call writes its payload at its spot. */
  lemma ReadyStep(disk: Disk, a: Action)
    requires Ready(disk, a)
    ensures Spot(a) != [] && IsDirAt(disk, Parent(Spot(a)))
    ensures Step(disk, a) == Ok(PutAt(disk, Spot(a), Payload(disk, a)))
  {
    ReadyParent(disk, a);
  }

  function Under(v: Option<Node>, r: Path): Option<Node>
  {
    if v.Some? then Find(v.value, r) else None
  }

  predicate AwayFrom(acts: seq<Action>, q: Path)
  {
    forall i | 0 <= i < |acts| :: Apart(Spot(acts[i]), q)
  }

  /** Away from every spot, `d` is as `disk0` was. */
  ghost predicate Untouched(disk0: Disk, acts: seq<Action>, d: Disk)
  {
    forall q | AwayFrom(acts, q) :: At(d, q) == At(disk0, q)
  }

  /** At and below each spot, `d` holds that call's payload. */
  ghost predicate Written(disk0: Disk, acts: seq<Action>, d: Disk)
  {
    forall i, q | 0 <= i < |acts| && Spot(acts[i]) <= q :: At(d, q) == Under(Payload(disk0, acts[i]), q[|Spot(acts[i])|..])
  }

  /** Above each spot, `d` has directories. */
  ghost predicate Above(acts: seq<Action>, d: Disk)
  {
    forall i, q | 0 <= i < |acts| && q <= Spot(acts[i]) && q != Spot(acts[i]) :: IsDirAt(d, q)
  }

  ghost predicate AllReady(disk0: Disk, acts: seq<Action>)
  {
    forall i | 0 <= i < |acts| :: Ready(disk0, acts[i])
  }

  /** No call writes where another writes, nor where a later one reads. */
  ghost predicate Separate(acts: seq<Action>)
  {
    forall i, j | 0 <= i < j < |acts| :: Apart(Spot(acts[i]), Spot(acts[j])) && Apart(Spot(acts[i]), Source(acts[j]))
  }

  /** A directory of `disk0` not at or below any spot is still one. */
  lemma DirStays(disk0: Disk, acts: seq<Action>, d: Disk, p: Path)
    requires Untouched(disk0, acts, d) && Above(acts, d)
    requires IsDirAt(disk0, p) && forall i | 0 <= i < |acts| :: !(Spot(acts[i]) <= p)
    ensures IsDirAt(d, p)
  {
    if !AwayFrom(acts, p) {
      var i :| 0 <= i < |acts| && !Apart(Spot(acts[i]), p);
    }
  }

  /** On the disk the earlier calls left, a later call still writes its original payload at its spot. */
  lemma StepAfter(disk0: Disk, front: seq<Action>, d: Disk, a: Action)
    requires Untouched(disk0, front, d) && Above(front, d)
    requires Ready(disk0, a)
    requires forall i | 0 <= i < |front| :: Apart(Spot(front[i]), Spot(a)) && Apart(Spot(front[i]), Source(a))
    ensures Spot(a) != [] && IsDirAt(d, Parent(Spot(a)))
    ensures Step(d, a) == Ok(PutAt(d, Spot(a), Payload(disk0, a)))
  {
    ReadyParent(disk0, a);
    var w := Spot(a);
    assert AwayFrom(front, w) && AwayFrom(front, Source(a));
    forall i | 0 <= i < |front| ensures !(Spot(front[i]) <= Parent(w)) {
      assert Parent(w) <= w;
    }
    DirStays(disk0, front, d, Parent(w));
    match a
    case CopyFile(s, t) =>
      assert t == Parent(w);
    case CopyDir(s, t) =>
    case RemoveFile(p) =>
    case RemoveDir(p) =>
  }

  lemma PutAtBelow(disk: Disk, p: Path, v: Option<Node>, q: Path)
    requires p != [] && IsDirAt(disk, Parent(p)) && p <= q
    ensures At(PutAt(disk, p, v), q) == Under(v, q[|p|..])
  {
    PutAtIsPut(disk, p, v);
    FindPutBelow(Dir(disk), p, v, q);
  }

  lemma PutAtAbove(disk: Disk, p: Path, v: Option<Node>, q: Path)
    requires p != [] && IsDirAt(disk, Parent(p)) && q <= p && q != p
    ensures IsDirAt(PutAt(disk, p, v), q)
  {
    PutAtIsPut(disk, p, v);
    FindPutAbove(Dir(disk), p, v, q);
  }

  /** Away from every spot, including the new one, nothing changed. */
  lemma ExtendUntouched(disk0: Disk, front: seq<Action>, d: Disk, a: Action, v: Option<Node>)
    requires Untouched(disk0, front, d)
    requires Spot(a) != [] && IsDirAt(d, Parent(Spot(a)))
    ensures Untouched(disk0, front + [a], PutAt(d, Spot(a), v))
  {
    var acts := front + [a];
    forall q | AwayFrom(acts, q) ensures At(PutAt(d, Spot(a), v), q) == At(disk0, q) {
      assert acts[|front|] == a;
      forall i | 0 <= i < |front| ensures Apart(Spot(front[i]), q) {
        assert acts[i] == front[i];
      }
      PutAtApart(d, Spot(a), v, q);
    }
  }

  /** The earlier spots keep their payloads and the new spot gets its own. */
  lemma ExtendWritten(disk0: Disk, front: seq<Action>, d: Disk, a: Action)
    requires Written(disk0, front, d)
    requires Spot(a) != [] && IsDirAt(d, Parent(Spot(a)))
    requires forall i | 0 <= i < |front| :: Apart(Spot(front[i]), Spot(a))
    ensures Written(disk0, front + [a], PutAt(d, Spot(a), Payload(disk0, a)))
  {
    var acts, w, v := front + [a], Spot(a), Payload(disk0, a);
    forall i, q | 0 <= i < |acts| && Spot(acts[i]) <= q
      ensures At(PutAt(d, w, v), q) == Under(Payload(disk0, acts[i]), q[|Spot(acts[i])|..])
    {
      if i == |front| {
        PutAtBelow(d, w, v, q);
      } else {
        assert acts[i] == front[i];
        ApartBelow(Spot(front[i]), q, w);
        PutAtApart(d, w, v, q);
      }
    }
  }

  lemma PrefixTrans(p: Path, q: Path, r: Path)
    requires p <= q && q <= r
    ensures p <= r
  {
    assert r[..|p|] == q[..|p|];
  }

  /** Above an earlier spot there is still a directory once the new spot is written. */
  lemma AboveEarlier(d: Disk, u: Path, w: Path, v: Option<Node>, q: Path)
    requires w != [] && IsDirAt(d, Parent(w)) && Apart(u, w)
    requires q <= u && q != u && IsDirAt(d, q)
    ensures IsDirAt(PutAt(d, w, v), q)
  {
    if q <= w {
      PutAtAbove(d, w, v, q);
    } else if w <= q {
      PrefixTrans(w, q, u);
    } else {
      PutAtApart(d, w, v, q);
    }
  }

  /** Directories above the earlier spots and above the new one. */
  lemma ExtendAbove(disk0: Disk, front: seq<Action>, d: Disk, a: Action, v: Option<Node>)
    requires Above(front, d)
    requires Spot(a) != [] && IsDirAt(d, Parent(Spot(a)))
    requires forall i | 0 <= i < |front| :: Apart(Spot(front[i]), Spot(a))
    ensures Above(front + [a], PutAt(d, Spot(a), v))
  {
    var acts, w := front + [a], Spot(a);
    forall i, q | 0 <= i < |acts| && q <= Spot(acts[i]) && q != Spot(acts[i]) ensures IsDirAt(PutAt(d, w, v), q) {
      if i == |front| {
        PutAtAbove(d, w, v, q);
      } else {
        assert acts[i] == front[i];
        AboveEarlier(d, Spot(front[i]), w, v, q);
      }
    }
  }

  /**
   * Ready calls that write at separate places and read away from earlier
   * writes all succeed, and the end result is each payload at its spot and
   * the starting filesystem everywhere else.
   */
  lemma {:induction false} ApplySeparate(disk0: Disk, acts: seq<Action>)
    requires AllReady(disk0, acts) && Separate(acts)
    ensures var r := Apply(disk0, acts);
      r.Done? && Untouched(disk0, acts, r.disk) && Written(disk0, acts, r.disk) && Above(acts, r.disk)
    decreases |acts|
  {
    if acts == [] {
    } else {
      var front, a := acts[..|acts| - 1], acts[|acts| - 1];
      assert acts == front + [a];
      assert AllReady(disk0, front) && Separate(front) by {
        forall i | 0 <= i < |front| ensures front[i] == acts[i] { }
      }
      ApplySeparate(disk0, front);
      var d := Apply(disk0, front).disk;
      forall i | 0 <= i < |front| ensures Apart(Spot(front[i]), Spot(a)) && Apart(Spot(front[i]), Source(a)) {
        assert front[i] == acts[i];
      }
      StepAfter(disk0, front, d, a);
      ApplySnoc(disk0, front, a);
      ExtendUntouched(disk0, front, d, a, Payload(disk0, a));
      ExtendWritten(disk0, front, d, a);
      ExtendAbove(disk0, front, d, a, Payload(disk0, a));
    }
  }
}
