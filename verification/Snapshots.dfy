/**
  Snapshots and rollback (safety.py), and the part of _run_handler that uses them (executor.py),
  on a file system of paths. The handler is an oracle that may do anything to any path but the
  request's own snapshot directory.
*/
module Snapshots {
  import opened Wrappers

  type Path = seq<string>

  datatype Entry = File(content: string) | Dir

  type FileSystem = map<Path, Entry>

  const MARKER := "TARGET_DID_NOT_EXIST"
  const ORIGINAL := "original"

  function Parent(p: Path): Path
    requires p != []
  {
    p[..|p| - 1]
  }

  // Every entry but the root lies in a directory.
  predicate WellFormed(fs: FileSystem) {
    && [] in fs && fs[[]] == Dir
    && forall p :: p in fs && p != [] ==> Parent(p) in fs && fs[Parent(p)] == Dir
  }

  // mkdir(parents=True, exist_ok=True); None when something on the way is a file.
  function MadeDirs(fs: FileSystem, p: Path): Option<FileSystem>
    decreases |p|
  {
    if p in fs then (if fs[p] == Dir then Some(fs) else None)
    else if p == [] then None
    else match MadeDirs(fs, Parent(p))
      case None => None
      case Some(f) => Some(f[p := Dir])
  }

  // It adds directories on the way to p and nothing else.
  lemma {:induction false} MadeDirsFacts(fs: FileSystem, p: Path)
    requires MadeDirs(fs, p).Some?
    ensures var f := MadeDirs(fs, p).value;
            && p in f && f[p] == Dir
            && (forall q :: q in fs ==> q in f && f[q] == fs[q])
            && (forall q :: q in f && q !in fs ==> q <= p && f[q] == Dir)
            && (WellFormed(fs) ==> WellFormed(f))
    decreases |p|
  {
    if p !in fs {
      MadeDirsFacts(fs, Parent(p));
      assert Parent(p) <= p;
    }
  }

  function WithoutTree(fs: FileSystem, p: Path): FileSystem {
    if p in fs then map q | q in fs && !(p <= q) :: fs[q] else fs
  }

  // Where a path below `from` goes when that is copied to `to`.
  function Moved(q: Path, from: Path, to: Path): Path
    requires from <= q
  {
    to + q[|from|..]
  }

  // copytree, with copy2 for files, over what is there: an entry below `from` lands at the same
  // place below `to`, but a file inside the directory of that name if there is one.
  function Landing(fs: FileSystem, q: Path, from: Path, to: Path): Path
    requires q in fs && from <= q && from != []
  {
    var d := Moved(q, from, to);
    if fs[q].File? && d in fs && fs[d] == Dir then d + [q[|q| - 1]] else d
  }

  predicate SameKind(e: Entry, f: Entry) {
    e.File? <==> f.File?
  }

  // Something of the other kind is in the way.
  predicate Obstructed(fs: FileSystem, q: Path, from: Path, to: Path)
    requires q in fs && from <= q && from != []
  {
    var d := Landing(fs, q, from, to);
    d in fs && !SameKind(fs[d], fs[q])
  }

  // What lands at d, if anything does.
  function SourceOf(fs: FileSystem, d: Path, from: Path, to: Path): Option<Path>
    requires from != [] && to != []
  {
    if !(to <= d) then None
    else
      var q := Moved(d, to, from);
      if q in fs && Landing(fs, q, from, to) == d then Some(q)
      else if !(to <= Parent(d)) then None
      else
        var up := Moved(Parent(d), to, from);
        if up in fs && Landing(fs, up, from, to) == d then Some(up) else None
  }

  // None when it raises.
  function CopiedTree(fs: FileSystem, from: Path, to: Path): Option<FileSystem>
    requires from != [] && to != []
  {
    if exists q :: q in fs && from <= q && Obstructed(fs, q, from, to) then None
    else
      var landings := set q | q in fs && from <= q :: Landing(fs, q, from, to);
      Some(fs + map d | d in landings && SourceOf(fs, d, from, to).Some? :: fs[SourceOf(fs, d, from, to).value])
  }

  // copy2: a file, into the destination if that is a directory. None when that fails.
  function CopiedFile(fs: FileSystem, from: Path, to: Path): Option<FileSystem>
    requires from in fs && from != []
  {
    var dest := if to in fs && fs[to] == Dir then to + [from[|from| - 1]] else to;
    if dest in fs && fs[dest] == Dir then None else Some(fs[dest := fs[from]])
  }

  // ---------------------------------------------------------------------------
  // snapshot_target() and rollback().
  // ---------------------------------------------------------------------------

  // None when it raises, as it does when the target contains its own copy's place.
  function SnapshotOf(fs: FileSystem, snap: Path, target: Path): Option<FileSystem>
    requires target != []
  {
    match MadeDirs(fs, snap)
    case None => None
    case Some(f) =>
      if target !in f then
        (var marker := snap + [MARKER];
         if marker in f && f[marker] == Dir then None else Some(f[marker := File("target path")]))
      else if target <= snap then None
      else if f[target].File? then CopiedFile(f, target, snap + [ORIGINAL])
      else CopiedTree(f, target, snap + [ORIGINAL])
  }

  // The file system afterwards and whether it reports success; an error inside means it does not.
  function RolledBack(fs: FileSystem, snap: Path, target: Path): (FileSystem, bool)
    requires target != []
  {
    var original := snap + [ORIGINAL];
    if snap !in fs then (fs, false)
    else if snap + [MARKER] in fs then (WithoutTree(fs, target), true)
    else if original !in fs then (fs, false)
    else if fs[original].File? then
      match MadeDirs(fs, Parent(target))
      case None => (fs, false)
      case Some(f) =>
        MadeDirsFacts(fs, Parent(target));
        (match CopiedFile(f, original, target)
         case None => (f, false)
         case Some(g) => (g, true))
    else if target in fs && fs[target].File? then (fs, false)
    else
      var cleared := WithoutTree(fs, target);
      match MadeDirs(cleared, target)
      case None => (cleared, false)
      case Some(f) =>
        (match CopiedTree(f, original, target)
         case None => (f, false)
         case Some(g) => (g, true))
  }

  // ---------------------------------------------------------------------------
  // What the operations on trees do.
  // ---------------------------------------------------------------------------

  // The same entries, with the same contents, below two places.
  ghost predicate SameTree(fs: FileSystem, p: Path, gs: FileSystem, q: Path) {
    forall r: Path :: (p + r in fs <==> q + r in gs) && (p + r in fs ==> fs[p + r] == gs[q + r])
  }

  ghost predicate AgreeAt(fs: FileSystem, gs: FileSystem, q: Path) {
    (q in fs <==> q in gs) && (q in fs ==> fs[q] == gs[q])
  }

  ghost predicate Apart(p: Path, q: Path) {
    !(p <= q) && !(q <= p)
  }

  // Paths below one of two separate places are separate from the other.
  lemma ApartBelow(p: Path, q: Path)
    requires Apart(p, q)
    ensures forall r :: p <= r ==> Apart(r, q)
  {
  }

  // Nothing lies below what is not there or is a file.
  lemma {:induction false} NothingBelow(fs: FileSystem, p: Path, q: Path)
    requires WellFormed(fs) && p <= q && (p !in fs || fs[p].File?)
    ensures q in fs ==> q == p
    decreases |q|
  {
    if q != p && q in fs {
      assert p <= Parent(q);
      NothingBelow(fs, p, Parent(q));
    }
  }

  lemma NothingBelowAll(fs: FileSystem, p: Path)
    requires WellFormed(fs) && p !in fs
    ensures forall q :: p <= q ==> q !in fs
  {
    forall q | p <= q ensures q !in fs {
      NothingBelow(fs, p, q);
    }
  }

  // Nothing but directories on the way to p, p included.
  ghost predicate WayFree(fs: FileSystem, p: Path) {
    forall q :: q in fs && q <= p ==> fs[q] == Dir
  }

  lemma {:induction false} AncestorsAreDirs(fs: FileSystem, p: Path, q: Path)
    requires WellFormed(fs) && p in fs && q <= p && q != p
    ensures q in fs && fs[q] == Dir
    decreases |p|
  {
    if q != Parent(p) {
      assert q <= Parent(p);
      AncestorsAreDirs(fs, Parent(p), q);
    }
  }

  // Making a directory succeeds exactly when no file is in its way.
  lemma {:induction false} MadeDirsSucceeds(fs: FileSystem, p: Path)
    requires WellFormed(fs)
    ensures MadeDirs(fs, p).Some? <==> WayFree(fs, p)
    decreases |p|
  {
    if p in fs {
      forall q | q in fs && q <= p && q != p ensures fs[q] == Dir {
        AncestorsAreDirs(fs, p, q);
      }
    } else {
      MadeDirsSucceeds(fs, Parent(p));
      assert Parent(p) <= p;
      forall q | q <= p && q in fs ensures q <= Parent(p) {
        assert q != p && |q| < |p|;
      }
    }
  }

  ghost predicate AgreeBelow(fs: FileSystem, gs: FileSystem, p: Path) {
    forall q :: p <= q ==> (q in fs <==> q in gs) && (q in fs ==> fs[q] == gs[q])
  }

  lemma AgreeIsSame(fs: FileSystem, gs: FileSystem, p: Path)
    ensures AgreeBelow(fs, gs, p) <==> SameTree(fs, p, gs, p)
  {
    if SameTree(fs, p, gs, p) {
      forall q | p <= q ensures (q in fs <==> q in gs) && (q in fs ==> fs[q] == gs[q]) {
        assert p + q[|p|..] == q;
      }
    }
  }

  // A marker that an earlier use of the id left.
  ghost predicate OldMarker(fs: FileSystem, snap: Path) {
    snap + [MARKER] in fs
  }

  // Every path below `to` is one below `from`, of the same kind.
  ghost predicate Covers(fs: FileSystem, from: Path, to: Path) {
    forall r: Path :: to + r in fs ==> from + r in fs && SameKind(fs[from + r], fs[to + r])
  }

  lemma MovedPlus(r: Path, from: Path, to: Path)
    ensures from <= from + r && Moved(from + r, from, to) == to + r
  {
    assert (from + r)[|from|..] == r;
  }

  // A copied entry is there afterwards; whatever was there keeps its kind.
  lemma CopyKeepsKinds(fs: FileSystem, from: Path, to: Path, d: Path)
    requires from != [] && to != [] && CopiedTree(fs, from, to).Some? && d in fs
    ensures var gs := CopiedTree(fs, from, to).value;
            d in gs && SameKind(gs[d], fs[d]) && (!(to <= d) ==> gs[d] == fs[d])
  {
    var from' := SourceOf(fs, d, from, to);
    if from'.Some? {
      var q := from'.value;
      assert q in fs && Landing(fs, q, from, to) == d;
      assert from <= q ==> !Obstructed(fs, q, from, to);
    }
  }

  // Where nothing of the other kind is in the way every entry lands at its own place.
  lemma CoveredLanding(fs: FileSystem, q: Path, from: Path, to: Path)
    requires from != [] && q in fs && from <= q && Covers(fs, from, to)
    ensures Landing(fs, q, from, to) == Moved(q, from, to)
  {
    var r := q[|from|..];
    assert from + r == q && to + r == Moved(q, from, to);
  }

  lemma CoveredCopyAt(fs: FileSystem, from: Path, to: Path, r: Path)
    requires from != [] && to != [] && CopiedTree(fs, from, to).Some? && Covers(fs, from, to)
    ensures var gs := CopiedTree(fs, from, to).value;
            (to + r in gs <==> from + r in fs) && (to + r in gs ==> gs[to + r] == fs[from + r])
  {
    var d, q := to + r, from + r;
    MovedPlus(r, from, to);
    MovedPlus(r, to, from);
    if q in fs {
      CoveredLanding(fs, q, from, to);
      assert SourceOf(fs, d, from, to) == Some(q);
      assert Landing(fs, q, from, to) == d;
    } else {
      assert d !in fs;
      forall x | x in fs && from <= x ensures Landing(fs, x, from, to) != d {
        CoveredLanding(fs, x, from, to);
        assert from + Moved(x, from, to)[|to|..] == x;
      }
    }
  }

  // A path that was there and that the source lacks, or has as another kind, is still there.
  lemma UncoveredCopyAt(fs: FileSystem, from: Path, to: Path, r: Path)
    requires from != [] && to != [] && CopiedTree(fs, from, to).Some?
    requires to + r in fs && !(from + r in fs && SameKind(fs[from + r], fs[to + r]))
    ensures var gs := CopiedTree(fs, from, to).value;
            to + r in gs && !(from + r in fs && gs[to + r] == fs[from + r])
  {
    CopyKeepsKinds(fs, from, to, to + r);
  }

  // Copying a tree onto another makes it the same there exactly when it covers that one.
  lemma CopyIsSame(fs: FileSystem, from: Path, to: Path)
    requires from != [] && to != [] && CopiedTree(fs, from, to).Some?
    ensures SameTree(CopiedTree(fs, from, to).value, to, fs, from) <==> Covers(fs, from, to)
  {
    if Covers(fs, from, to) {
      forall r: Path
        ensures var gs := CopiedTree(fs, from, to).value;
                (to + r in gs <==> from + r in fs) && (to + r in gs ==> gs[to + r] == fs[from + r])
      {
        CoveredCopyAt(fs, from, to, r);
      }
    } else {
      var r: Path :| to + r in fs && !(from + r in fs && SameKind(fs[from + r], fs[to + r]));
      UncoveredCopyAt(fs, from, to, r);
    }
  }

  // Outside its destination a copy changes nothing.
  lemma CopyFrame(fs: FileSystem, from: Path, to: Path, d: Path)
    requires from != [] && to != [] && CopiedTree(fs, from, to).Some? && !(to <= d)
    ensures AgreeAt(fs, CopiedTree(fs, from, to).value, d)
  {
  }

  // Into a place with nothing in it a copy always succeeds.
  lemma CopyIntoEmpty(fs: FileSystem, from: Path, to: Path)
    requires from != [] && to != [] && from in fs && fs[from] == Dir
    requires forall q :: q in fs && to <= q ==> q == to && fs[q] == Dir
    ensures Covers(fs, from, to) && CopiedTree(fs, from, to).Some?
  {
    forall r: Path | to + r in fs ensures from + r in fs && SameKind(fs[from + r], fs[to + r]) {
      assert to + r == to;
      assert r == [] && from + r == from;
    }
    forall q | q in fs && from <= q ensures !Obstructed(fs, q, from, to) {
      CoveredLanding(fs, q, from, to);
      if Moved(q, from, to) == to {
        assert q == from;
      }
    }
  }

  // A copied directory is a directory at its place.
  lemma DirLands(fs: FileSystem, from: Path, to: Path, r: Path)
    requires from != [] && to != [] && CopiedTree(fs, from, to).Some?
    requires from + r in fs && fs[from + r] == Dir
    ensures var gs := CopiedTree(fs, from, to).value; to + r in gs && gs[to + r] == Dir
  {
    MovedPlus(r, from, to);
    MovedPlus(r, to, from);
    assert Landing(fs, from + r, from, to) == to + r;
    assert SourceOf(fs, to + r, from, to) == Some(from + r);
  }

  lemma ParentMoves(q: Path, from: Path, to: Path)
    requires from <= q && q != from && to != []
    ensures |q| > |from| && from <= Parent(q) && Parent(Moved(q, from, to)) == to + Parent(q)[|from|..]
  {
    var d, r := Moved(q, from, to), Parent(q)[|from|..];
    assert |d| == |to| + |q| - |from| && |r| == |q| - |from| - 1;
    assert d[..|d| - 1] == to + r;
  }

  lemma LandsUnder(fs: FileSystem, from: Path, to: Path, q: Path)
    requires WellFormed(fs) && from != [] && to != [] && CopiedTree(fs, from, to).Some?
    requires q in fs && from <= q && q != from
    ensures var d, gs := Moved(q, from, to), CopiedTree(fs, from, to).value;
            d != [] && Parent(d) in gs && gs[Parent(d)] == Dir
  {
    var r := Parent(q)[|from|..];
    ParentMoves(q, from, to);
    assert from <= Parent(q) && Parent(q) == from + r;
    DirLands(fs, from, to, r);
  }

  lemma LandsInside(fs: FileSystem, from: Path, to: Path, q: Path)
    requires from != [] && to != [] && CopiedTree(fs, from, to).Some?
    requires q in fs && from <= q && Landing(fs, q, from, to) != Moved(q, from, to)
    ensures var d, gs := Landing(fs, q, from, to), CopiedTree(fs, from, to).value;
            d != [] && Parent(d) in gs && gs[Parent(d)] == Dir
  {
    CopyKeepsKinds(fs, from, to, Moved(q, from, to));
    assert Parent(Landing(fs, q, from, to)) == Moved(q, from, to);
  }

  lemma CopyAddsUnder(fs: FileSystem, from: Path, to: Path, d: Path)
    requires WellFormed(fs) && from != [] && to != [] && CopiedTree(fs, from, to).Some?
    requires from in fs && fs[from] == Dir && Parent(to) in fs && fs[Parent(to)] == Dir
    requires d in CopiedTree(fs, from, to).value && d !in fs
    ensures var gs := CopiedTree(fs, from, to).value; d != [] && Parent(d) in gs && gs[Parent(d)] == Dir
  {
    var q := SourceOf(fs, d, from, to).value;
    assert from <= q && Landing(fs, q, from, to) == d;
    if d != Moved(q, from, to) {
      LandsInside(fs, from, to, q);
    } else if q == from {
      assert d == to;
      CopyKeepsKinds(fs, from, to, Parent(to));
    } else {
      LandsUnder(fs, from, to, q);
    }
  }

  lemma CopyKeepsWellFormed(fs: FileSystem, from: Path, to: Path)
    requires WellFormed(fs) && from != [] && to != [] && CopiedTree(fs, from, to).Some?
    requires from in fs && fs[from] == Dir && Parent(to) in fs && fs[Parent(to)] == Dir
    ensures WellFormed(CopiedTree(fs, from, to).value)
  {
    var gs := CopiedTree(fs, from, to).value;
    CopyKeepsKinds(fs, from, to, []);
    forall d | d in gs && d != [] ensures Parent(d) in gs && gs[Parent(d)] == Dir {
      if d in fs {
        CopyKeepsKinds(fs, from, to, Parent(d));
      } else {
        CopyAddsUnder(fs, from, to, d);
      }
    }
  }

  // A copied file is the whole tree at its place.
  lemma FileIsTree(fs: FileSystem, p: Path, gs: FileSystem, q: Path)
    requires WellFormed(fs) && WellFormed(gs)
    requires p in fs && fs[p].File? && q in gs && gs[q] == fs[p]
    ensures SameTree(fs, p, gs, q)
  {
    forall r: Path ensures (p + r in fs <==> q + r in gs) && (p + r in fs ==> fs[p + r] == gs[q + r]) {
      NothingBelow(fs, p, p + r);
      NothingBelow(gs, q, q + r);
      if r == [] {
        assert p + r == p && q + r == q;
      } else {
        assert |p + r| > |p| && |q + r| > |q|;
      }
    }
  }

  // A file in the place of a well-formed tree covers it exactly when that is no directory.
  lemma FileCovers(fs: FileSystem, from: Path, to: Path)
    requires WellFormed(fs) && from in fs && fs[from].File?
    ensures Covers(fs, from, to) <==> !(to in fs && fs[to] == Dir)
  {
    assert from + [] == from && to + [] == to;
    if !(to in fs && fs[to] == Dir) {
      forall r: Path | to + r in fs ensures from + r in fs && SameKind(fs[from + r], fs[to + r]) {
        NothingBelow(fs, to, to + r);
        assert r == [];
      }
    }
  }

  lemma SameTreeTo(fs: FileSystem, p: Path, gs: FileSystem, q: Path, hs: FileSystem)
    requires AgreeBelow(gs, hs, q)
    ensures SameTree(fs, p, gs, q) <==> SameTree(fs, p, hs, q)
  {
  }

  lemma CoversIn(fs: FileSystem, gs: FileSystem, from: Path, to: Path)
    requires AgreeBelow(fs, gs, from) && AgreeBelow(fs, gs, to)
    ensures Covers(fs, from, to) <==> Covers(gs, from, to)
  {
  }

  lemma SlotsDiffer(snap: Path)
    ensures !(snap + [ORIGINAL] <= snap + [MARKER])
  {
    assert ORIGINAL[0] != MARKER[0];
    assert (snap + [ORIGINAL])[|snap|] == ORIGINAL && (snap + [MARKER])[|snap|] == MARKER;
  }

  lemma MadeDirsKeepsBelow(fs: FileSystem, p: Path, q: Path)
    requires MadeDirs(fs, p).Some? && !(q <= p)
    ensures AgreeBelow(MadeDirs(fs, p).value, fs, q)
  {
    MadeDirsFacts(fs, p);
  }

  // ---------------------------------------------------------------------------
  // What a snapshot leaves.
  // ---------------------------------------------------------------------------

  lemma WithFile(fs: FileSystem, p: Path, content: string)
    requires WellFormed(fs) && p != [] && Parent(p) in fs && fs[Parent(p)] == Dir
    requires p in fs ==> fs[p].File?
    ensures WellFormed(fs[p := File(content)])
  {
  }

  lemma SnapshotKeepsWellFormed(fs: FileSystem, snap: Path, target: Path)
    requires target != [] && WellFormed(fs) && SnapshotOf(fs, snap, target).Some?
    ensures WellFormed(SnapshotOf(fs, snap, target).value)
  {
    MadeDirsFacts(fs, snap);
    var f, original, marker := MadeDirs(fs, snap).value, snap + [ORIGINAL], snap + [MARKER];
    assert Parent(original) == snap && Parent(marker) == snap;
    if target !in f {
      WithFile(f, marker, "target path");
    } else if f[target].File? {
      var inside := original + [target[|target| - 1]];
      assert Parent(inside) == original;
      WithFile(f, if original in f && f[original] == Dir then inside else original, f[target].content);
    } else {
      CopyKeepsWellFormed(f, target, original);
    }
  }

  // A target that contains its snapshot directory makes the snapshot raise.
  lemma SnapshotApart(fs: FileSystem, snap: Path, target: Path)
    requires target != [] && WellFormed(fs) && SnapshotOf(fs, snap, target).Some?
    ensures !(target <= snap)
  {
    MadeDirsFacts(fs, snap);
    if target <= snap && target !in MadeDirs(fs, snap).value {
      NothingBelow(MadeDirs(fs, snap).value, target, snap);
    }
  }

  // The copy is the target exactly when the target covers what an earlier use of the id left in
  // its place.
  lemma SnapshotHoldsFile(fs: FileSystem, snap: Path, target: Path)
    requires WellFormed(fs) && !(snap <= target) && target in fs && fs[target].File? && target != []
    requires SnapshotOf(fs, snap, target).Some?
    ensures var fs1, original := SnapshotOf(fs, snap, target).value, snap + [ORIGINAL];
            && (SameTree(fs1, original, fs, target) <==> Covers(fs, target, original))
            && original in fs1 && (fs1[original] == Dir <==> !Covers(fs, target, original))
            && (OldMarker(fs1, snap) <==> OldMarker(fs, snap))
  {
    MadeDirsFacts(fs, snap);
    SnapshotKeepsWellFormed(fs, snap, target);
    var f, original := MadeDirs(fs, snap).value, snap + [ORIGINAL];
    var fs1 := SnapshotOf(fs, snap, target).value;
    assert original in f <==> original in fs;
    FileCovers(fs, target, original);
    SlotsDiffer(snap);
    if original in f && f[original] == Dir {
      assert original + [] == original && target + [] == target;
    } else {
      assert fs1 == f[original := f[target]];
      FileIsTree(fs1, original, fs, target);
    }
  }

  lemma SnapshotHoldsDir(fs: FileSystem, snap: Path, target: Path)
    requires WellFormed(fs) && !(snap <= target) && target in fs && fs[target] == Dir && target != []
    requires SnapshotOf(fs, snap, target).Some?
    ensures var fs1, original := SnapshotOf(fs, snap, target).value, snap + [ORIGINAL];
            && (SameTree(fs1, original, fs, target) <==> Covers(fs, target, original))
            && original in fs1 && fs1[original] == Dir
            && (OldMarker(fs1, snap) <==> OldMarker(fs, snap))
  {
    MadeDirsFacts(fs, snap);
    SnapshotApart(fs, snap, target);
    var f, original := MadeDirs(fs, snap).value, snap + [ORIGINAL];
    MadeDirsKeepsBelow(fs, snap, target);
    MadeDirsKeepsBelow(fs, snap, original);
    CoversIn(f, fs, target, original);
    CopyIsSame(f, target, original);
    SameTreeTo(CopiedTree(f, target, original).value, original, f, target, fs);
    assert target + [] == target && original + [] == original;
    DirLands(f, target, original, []);
    SlotsDiffer(snap);
    CopyFrame(f, target, original, snap + [MARKER]);
  }

  // ---------------------------------------------------------------------------
  // Rollback undoes the handler.
  // ---------------------------------------------------------------------------

  // A request's file systems: before its snapshot, and after a handler that left the snapshot alone.
  ghost predicate Request(fs0: FileSystem, snap: Path, target: Path, fs2: FileSystem) {
    && target != [] && !(snap <= target)
    && WellFormed(fs0) && WellFormed(fs2)
    && SnapshotOf(fs0, snap, target).Some?
    && AgreeBelow(SnapshotOf(fs0, snap, target).value, fs2, snap)
  }

  // The handler put a directory where there was a file.
  ghost predicate FileBecameDir(fs0: FileSystem, target: Path, fs2: FileSystem) {
    && target in fs0 && fs0[target].File?
    && target in fs2 && fs2[target] == Dir
  }

  // What a rollback can restore: a target that did not exist; and one that did, if the snapshot
  // directory held no marker and no copy with anything the target lacks, and the handler did not
  // turn it from a file into a directory.
  ghost predicate Restorable(fs0: FileSystem, snap: Path, target: Path, fs2: FileSystem) {
    target in fs0 ==>
      && !OldMarker(fs0, snap)
      && Covers(fs0, target, snap + [ORIGINAL])
      && !FileBecameDir(fs0, target, fs2)
  }

  lemma SnapshotKeepsPlace(fs: FileSystem, snap: Path, target: Path)
    requires target != [] && WellFormed(fs) && SnapshotOf(fs, snap, target).Some?
    ensures snap in SnapshotOf(fs, snap, target).value
  {
    MadeDirsFacts(fs, snap);
    var f, original := MadeDirs(fs, snap).value, snap + [ORIGINAL];
    if target in f && f[target] == Dir {
      CopyFrame(f, target, original, snap);
    }
  }

  // What a snapshot leaves in its directory.
  ghost predicate Holding(fs0: FileSystem, snap: Path, target: Path, fs: FileSystem) {
    var original := snap + [ORIGINAL];
    && snap in fs
    && (snap + [MARKER] in fs <==> OldMarker(fs0, snap) || target !in fs0)
    && (target in fs0 ==>
          && original in fs
          && (SameTree(fs, original, fs0, target) <==> Covers(fs0, target, original))
          && (fs[original].File? ==> fs0[target].File? && Covers(fs0, target, original)))
  }

  lemma SnapshotHolds(fs0: FileSystem, snap: Path, target: Path)
    requires target != [] && !(snap <= target) && WellFormed(fs0) && SnapshotOf(fs0, snap, target).Some?
    ensures Holding(fs0, snap, target, SnapshotOf(fs0, snap, target).value)
  {
    SnapshotKeepsPlace(fs0, snap, target);
    if target in fs0 {
      if fs0[target].File? { SnapshotHoldsFile(fs0, snap, target); } else { SnapshotHoldsDir(fs0, snap, target); }
    } else {
      MadeDirsFacts(fs0, snap);
      SnapshotApart(fs0, snap, target);
    }
  }

  lemma SameTreeFrom(fs: FileSystem, p: Path, gs: FileSystem, q: Path, hs: FileSystem)
    requires AgreeBelow(fs, hs, p)
    ensures SameTree(fs, p, gs, q) <==> SameTree(hs, p, gs, q)
  {
  }

  lemma HoldingIn(fs0: FileSystem, snap: Path, target: Path, fs1: FileSystem, fs2: FileSystem)
    requires Holding(fs0, snap, target, fs1) && AgreeBelow(fs1, fs2, snap)
    ensures Holding(fs0, snap, target, fs2)
  {
    var original := snap + [ORIGINAL];
    assert snap <= snap && snap <= original && snap <= snap + [MARKER];
    forall q | original <= q ensures AgreeAt(fs1, fs2, q) {
      assert snap <= q;
    }
    assert AgreeBelow(fs1, fs2, original);
    SameTreeFrom(fs1, original, fs0, target, fs2);
  }

  // What the snapshot directory holds when the rollback starts.
  lemma SnapshotFound(fs0: FileSystem, snap: Path, target: Path, fs2: FileSystem)
    requires Request(fs0, snap, target, fs2)
    ensures Holding(fs0, snap, target, fs2)
  {
    SnapshotHolds(fs0, snap, target);
    HoldingIn(fs0, snap, target, SnapshotOf(fs0, snap, target).value, fs2);
  }

  lemma RestoresAbsent(fs0: FileSystem, snap: Path, target: Path, fs2: FileSystem)
    requires Request(fs0, snap, target, fs2)
    requires OldMarker(fs0, snap) || target !in fs0
    ensures RolledBack(fs2, snap, target) == (WithoutTree(fs2, target), true)
    ensures SameTree(WithoutTree(fs2, target), target, fs0, target) <==> target !in fs0
  {
    SnapshotFound(fs0, snap, target, fs2);
    var fs3 := WithoutTree(fs2, target);
    forall q | target <= q ensures q !in fs3 {
      if target !in fs2 {
        NothingBelow(fs2, target, q);
      }
    }
    if target in fs0 {
      assert target + [] == target && target + [] !in fs3;
    } else {
      forall r: Path ensures target + r !in fs3 && target + r !in fs0 {
        NothingBelow(fs0, target, target + r);
      }
    }
  }

  // Copying a file back: onto nothing or a file it is restored, into a directory it is not.
  lemma FileReplaced(fs: FileSystem, original: Path, target: Path)
    requires WellFormed(fs) && target != [] && original != []
    requires original in fs && fs[original].File? && MadeDirs(fs, Parent(target)).Some?
    ensures var f := MadeDirs(fs, Parent(target)).value;
            && original in f
            && (CopiedFile(f, original, target).Some? ==>
                  var g := CopiedFile(f, original, target).value;
                  if target in fs && fs[target] == Dir then target in g && g[target] == Dir
                  else SameTree(g, target, fs, original))
  {
    MadeDirsFacts(fs, Parent(target));
    var f := MadeDirs(fs, Parent(target)).value;
    assert target in f <==> target in fs;
    if CopiedFile(f, original, target).Some? && !(target in fs && fs[target] == Dir) {
      WithFile(f, target, fs[original].content);
      FileIsTree(f[target := fs[original]], target, fs, original);
    }
  }

  lemma SameTreeTrans(fs: FileSystem, p: Path, gs: FileSystem, q: Path, hs: FileSystem, r: Path)
    requires SameTree(fs, p, gs, q)
    ensures SameTree(fs, p, hs, r) <==> SameTree(gs, q, hs, r)
  {
  }

  lemma RestoresFile(fs0: FileSystem, snap: Path, target: Path, fs2: FileSystem)
    requires Request(fs0, snap, target, fs2)
    requires !OldMarker(fs0, snap) && target in fs0 && Holding(fs0, snap, target, fs2)
    requires fs2[snap + [ORIGINAL]].File? && RolledBack(fs2, snap, target).1
    ensures SameTree(RolledBack(fs2, snap, target).0, target, fs0, target) <==> !FileBecameDir(fs0, target, fs2)
  {
    var original := snap + [ORIGINAL];
    var fs3 := RolledBack(fs2, snap, target).0;
    FileReplaced(fs2, original, target);
    if FileBecameDir(fs0, target, fs2) {
      assert fs3[target] == Dir && target + [] == target;
    } else {
      SameTreeTrans(fs3, target, fs2, original, fs0, target);
    }
  }

  // Replacing a tree by the one at `original`.
  lemma TreeReplaced(fs: FileSystem, original: Path, target: Path)
    requires WellFormed(fs) && target != [] && original != [] && Apart(original, target)
    requires original in fs && fs[original] == Dir && MadeDirs(WithoutTree(fs, target), target).Some?
    ensures var f := MadeDirs(WithoutTree(fs, target), target).value;
            && CopiedTree(f, original, target).Some?
            && SameTree(CopiedTree(f, original, target).value, target, fs, original)
  {
    var cleared := WithoutTree(fs, target);
    var f := MadeDirs(cleared, target).value;
    MadeDirsFacts(cleared, target);
    ApartBelow(original, target);
    MadeDirsKeepsBelow(cleared, target, original);
    forall q | q in f && target <= q ensures q == target && f[q] == Dir {
      if target !in fs {
        NothingBelow(fs, target, q);
      }
    }
    CopyIntoEmpty(f, original, target);
    CopyIsSame(f, original, target);
    SameTreeTo(CopiedTree(f, original, target).value, target, f, original, fs);
  }

  lemma OriginalApart(fs: FileSystem, snap: Path, target: Path)
    requires target != [] && !(snap <= target) && WellFormed(fs) && SnapshotOf(fs, snap, target).Some?
    ensures Apart(snap + [ORIGINAL], target)
  {
    SnapshotApart(fs, snap, target);
    ApartBelow(snap, target);
    assert snap <= snap + [ORIGINAL];
  }

  lemma RestoresDir(fs0: FileSystem, snap: Path, target: Path, fs2: FileSystem)
    requires Request(fs0, snap, target, fs2)
    requires !OldMarker(fs0, snap) && target in fs0 && Holding(fs0, snap, target, fs2)
    requires fs2[snap + [ORIGINAL]] == Dir && RolledBack(fs2, snap, target).1
    ensures SameTree(RolledBack(fs2, snap, target).0, target, fs0, target) <==> Covers(fs0, target, snap + [ORIGINAL])
  {
    var original := snap + [ORIGINAL];
    OriginalApart(fs0, snap, target);
    TreeReplaced(fs2, original, target);
    SameTreeTrans(RolledBack(fs2, snap, target).0, target, fs2, original, fs0, target);
  }

  // A rollback that reports success leaves the target exactly as it was before the handler ran,
  // absent included, if and only if that can be restored.
  lemma RollbackRestores(fs0: FileSystem, snap: Path, target: Path, fs2: FileSystem)
    requires Request(fs0, snap, target, fs2)
    requires RolledBack(fs2, snap, target).1
    ensures SameTree(RolledBack(fs2, snap, target).0, target, fs0, target) <==> Restorable(fs0, snap, target, fs2)
  {
    SnapshotFound(fs0, snap, target, fs2);
    if OldMarker(fs0, snap) || target !in fs0 {
      RestoresAbsent(fs0, snap, target, fs2);
    } else if fs2[snap + [ORIGINAL]].File? {
      RestoresFile(fs0, snap, target, fs2);
    } else {
      RestoresDir(fs0, snap, target, fs2);
      if fs0[target].File? {
        FileCovers(fs0, target, snap + [ORIGINAL]);
        SnapshotHoldsFile(fs0, snap, target);
      }
    }
  }

  // ---------------------------------------------------------------------------
  // When a rollback succeeds.
  // ---------------------------------------------------------------------------

  // A file copied back lands inside a directory at its place, unless a directory is there too.
  ghost predicate LandingBlocked(fs: FileSystem, target: Path) {
    && target in fs && fs[target] == Dir
    && target + [ORIGINAL] in fs && fs[target + [ORIGINAL]] == Dir
  }

  // What the disk must be like: a marker is there; or the copy is a file, nothing but directories
  // is on the way to the target and no directory blocks the landing; or the copy is a directory and
  // neither the target nor anything on the way to it is a file.
  ghost predicate CanRollBack(fs: FileSystem, snap: Path, target: Path)
    requires target != []
  {
    var original := snap + [ORIGINAL];
    || snap + [MARKER] in fs
    || (original in fs && fs[original].File? && WayFree(fs, Parent(target)) && !LandingBlocked(fs, target))
    || (original in fs && fs[original] == Dir && WayFree(fs, target))
  }

  lemma WithoutTreeKeepsWellFormed(fs: FileSystem, p: Path)
    requires WellFormed(fs) && p != []
    ensures WellFormed(WithoutTree(fs, p))
  {
    forall q | q in fs && q != [] && !(p <= q) ensures !(p <= Parent(q)) {
      assert Parent(q) <= q;
    }
  }

  lemma FileGoesBack(fs: FileSystem, snap: Path, target: Path)
    requires WellFormed(fs) && target != [] && snap + [ORIGINAL] in fs
    ensures (MadeDirs(fs, Parent(target)).Some? &&
             var f := MadeDirs(fs, Parent(target)).value;
             snap + [ORIGINAL] in f && CopiedFile(f, snap + [ORIGINAL], target).Some?) <==>
            WayFree(fs, Parent(target)) && !LandingBlocked(fs, target)
  {
    var original := snap + [ORIGINAL];
    MadeDirsSucceeds(fs, Parent(target));
    if MadeDirs(fs, Parent(target)).Some? {
      MadeDirsFacts(fs, Parent(target));
      assert original[|original| - 1] == ORIGINAL;
    }
  }

  lemma TreeGoesBack(fs: FileSystem, target: Path)
    requires WellFormed(fs) && target != []
    ensures !(target in fs && fs[target].File?) && MadeDirs(WithoutTree(fs, target), target).Some? <==>
            WayFree(fs, target)
  {
    var cleared := WithoutTree(fs, target);
    WithoutTreeKeepsWellFormed(fs, target);
    MadeDirsSucceeds(cleared, target);
    forall q | q <= target && q != target ensures q in cleared <==> q in fs {
    }
  }

  lemma RollbackSucceedsOn(fs: FileSystem, snap: Path, target: Path)
    requires WellFormed(fs) && target != [] && Apart(snap + [ORIGINAL], target)
    ensures RolledBack(fs, snap, target).1 <==> CanRollBack(fs, snap, target)
  {
    var original := snap + [ORIGINAL];
    assert Parent(original) == snap && Parent(snap + [MARKER]) == snap;
    if snap + [MARKER] !in fs && original in fs {
      if fs[original].File? {
        FileGoesBack(fs, snap, target);
        assert snap in fs && fs[original] != Dir;
        assert CanRollBack(fs, snap, target) <==> WayFree(fs, Parent(target)) && !LandingBlocked(fs, target);
        if MadeDirs(fs, Parent(target)).Some? {
          var f := MadeDirs(fs, Parent(target)).value;
          MadeDirsFacts(fs, Parent(target));
          assert RolledBack(fs, snap, target).1 <==> CopiedFile(f, original, target).Some?;
        } else {
          assert !RolledBack(fs, snap, target).1;
        }
      } else if target in fs && fs[target].File? {
        assert !WayFree(fs, target);
      } else {
        TreeGoesBack(fs, target);
        if MadeDirs(WithoutTree(fs, target), target).Some? {
          TreeReplaced(fs, original, target);
        }
      }
    }
  }

  // The rollback of a request reports success exactly under that condition on the disk which the
  // handler left. If the target did not exist, or an old marker is there, it always does.
  lemma RollbackSucceeds(fs0: FileSystem, snap: Path, target: Path, fs2: FileSystem)
    requires Request(fs0, snap, target, fs2)
    ensures RolledBack(fs2, snap, target).1 <==> CanRollBack(fs2, snap, target)
    ensures OldMarker(fs0, snap) || target !in fs0 ==> CanRollBack(fs2, snap, target)
  {
    OriginalApart(fs0, snap, target);
    RollbackSucceedsOn(fs2, snap, target);
    SnapshotFound(fs0, snap, target, fs2);
  }

  // No earlier use of the id left anything.
  ghost predicate FreshId(fs: FileSystem, snap: Path) {
    snap + [MARKER] !in fs && snap + [ORIGINAL] !in fs
  }

  lemma FreshCovers(fs: FileSystem, snap: Path, target: Path)
    requires WellFormed(fs) && FreshId(fs, snap)
    ensures Covers(fs, target, snap + [ORIGINAL])
  {
    NothingBelowAll(fs, snap + [ORIGINAL]);
  }

  // With a fresh id a snapshot succeeds exactly when no file is in the way of its directory and the
  // target does not contain that directory.
  lemma SnapshotSucceeds(fs: FileSystem, snap: Path, target: Path)
    requires WellFormed(fs) && target != [] && !(snap <= target) && FreshId(fs, snap)
    ensures SnapshotOf(fs, snap, target).Some? <==> WayFree(fs, snap) && !(target <= snap)
  {
    MadeDirsSucceeds(fs, snap);
    if SnapshotOf(fs, snap, target).Some? {
      SnapshotApart(fs, snap, target);
    } else if MadeDirs(fs, snap).Some? && !(target <= snap) {
      MadeDirsFacts(fs, snap);
      var f, original := MadeDirs(fs, snap).value, snap + [ORIGINAL];
      assert original !in f && snap + [MARKER] !in f;
      if target in f && f[target] == Dir {
        NothingBelowAll(f, original);
        CopyIntoEmpty(f, target, original);
      }
    }
  }

  // Outside the target nothing changed but for directories added on the way to it.
  ghost predicate OnlyUnder(fs: FileSystem, target: Path, after: FileSystem) {
    forall q :: !(target <= q) ==>
      && (q in fs ==> q in after && after[q] == fs[q])
      && (q in after && q !in fs ==> q <= target && after[q] == Dir)
  }

  lemma FileBackFrame(fs: FileSystem, original: Path, target: Path)
    requires target != [] && original != [] && original in fs && MadeDirs(fs, Parent(target)).Some?
    ensures var f := MadeDirs(fs, Parent(target)).value;
            && original in f && OnlyUnder(fs, target, f)
            && (CopiedFile(f, original, target).Some? ==> OnlyUnder(fs, target, CopiedFile(f, original, target).value))
  {
    MadeDirsFacts(fs, Parent(target));
    assert Parent(target) <= target;
  }

  lemma TreeBackFrame(fs: FileSystem, original: Path, target: Path)
    requires target != [] && original != [] && MadeDirs(WithoutTree(fs, target), target).Some?
    ensures var f := MadeDirs(WithoutTree(fs, target), target).value;
            && OnlyUnder(fs, target, f)
            && (CopiedTree(f, original, target).Some? ==> OnlyUnder(fs, target, CopiedTree(f, original, target).value))
  {
    var f := MadeDirs(WithoutTree(fs, target), target).value;
    MadeDirsFacts(WithoutTree(fs, target), target);
    if CopiedTree(f, original, target).Some? {
      forall q | !(target <= q) ensures AgreeAt(f, CopiedTree(f, original, target).value, q) {
        CopyFrame(f, original, target, q);
      }
    }
  }

  // That is all a rollback, successful or not, does outside its target.
  lemma RollbackFrame(fs: FileSystem, snap: Path, target: Path)
    requires target != []
    ensures OnlyUnder(fs, target, RolledBack(fs, snap, target).0)
  {
    var original := snap + [ORIGINAL];
    if snap in fs && snap + [MARKER] !in fs && original in fs {
      if fs[original].File? {
        if MadeDirs(fs, Parent(target)).Some? {
          FileBackFrame(fs, original, target);
        }
      } else if MadeDirs(WithoutTree(fs, target), target).Some? {
        TreeBackFrame(fs, original, target);
      }
    }
  }

  lemma SnapshotFrame(fs0: FileSystem, snap: Path, target: Path, q: Path)
    requires target != [] && SnapshotOf(fs0, snap, target).Some? && Apart(snap, q)
    ensures AgreeAt(fs0, SnapshotOf(fs0, snap, target).value, q)
  {
    MadeDirsFacts(fs0, snap);
    var original := snap + [ORIGINAL];
    assert snap <= original && snap <= snap + [MARKER];
    if original <= q {
      assert false;
    }
  }

  // Whole-request form: a handler that writes below its target and creates directories on the way
  // to it, and is rolled back, leaves everything else as it was, up to those directories and the
  // snapshot.
  lemma HandlerUndone(fs0: FileSystem, snap: Path, target: Path, fs2: FileSystem, q: Path)
    requires Request(fs0, snap, target, fs2)
    requires !(target <= q) ==> AgreeAt(SnapshotOf(fs0, snap, target).value, fs2, q)
    requires RolledBack(fs2, snap, target).1
    requires Apart(snap, q) && (target <= q || !(q <= target))
    ensures (target <= q ==> Restorable(fs0, snap, target, fs2)) ==> AgreeAt(fs0, RolledBack(fs2, snap, target).0, q)
  {
    if target <= q {
      if Restorable(fs0, snap, target, fs2) {
        RollbackRestores(fs0, snap, target, fs2);
        AgreeIsSame(RolledBack(fs2, snap, target).0, fs0, target);
      }
    } else {
      RollbackFrame(fs2, snap, target);
      SnapshotFrame(fs0, snap, target, q);
    }
  }

  // ---------------------------------------------------------------------------
  // The three ways in which a rollback reports success and does not restore.
  // ---------------------------------------------------------------------------

  // A marker left by an earlier request with the same id: the file that existed is deleted.
  lemma OldMarkerDeletesTarget() returns (fs0: FileSystem, snap: Path, target: Path, fs2: FileSystem)
    ensures Request(fs0, snap, target, fs2) && RolledBack(fs2, snap, target).1
    ensures OldMarker(fs0, snap) && !FileBecameDir(fs0, target, fs2) && Covers(fs0, target, snap + [ORIGINAL])
    ensures target in fs0 && target !in RolledBack(fs2, snap, target).0
  {
    snap, target := ["snap"], ["target"];
    fs0 := map[[] := Dir, snap := Dir, snap + [MARKER] := File("target path"), target := File("text")];
    assert Parent(snap) == [] && Parent(target) == [] && Parent(snap + [MARKER]) == snap;
    assert snap[0] != target[0] && !(snap <= target) && !(target <= snap);
    assert snap + [ORIGINAL] !in fs0 by { SlotsDiffer(snap); }
    fs2 := fs0[snap + [ORIGINAL] := File("text")];
    WithFile(fs0, snap + [ORIGINAL], "text");
    assert SnapshotOf(fs0, snap, target) == Some(fs2);
    FileCovers(fs0, target, snap + [ORIGINAL]);
  }

  // A handler that replaces its file by a directory: the copy lands inside and success is reported.
  lemma FileBecomesDir() returns (fs0: FileSystem, snap: Path, target: Path, fs2: FileSystem)
    ensures Request(fs0, snap, target, fs2) && RolledBack(fs2, snap, target).1
    ensures !OldMarker(fs0, snap) && FileBecameDir(fs0, target, fs2) && Covers(fs0, target, snap + [ORIGINAL])
    ensures target in RolledBack(fs2, snap, target).0 && RolledBack(fs2, snap, target).0[target] == Dir
  {
    snap, target := ["snap"], ["target"];
    fs0 := map[[] := Dir, snap := Dir, target := File("text")];
    assert Parent(snap) == [] && Parent(target) == [];
    assert snap[0] != target[0] && !(snap <= target) && !(target <= snap);
    var original := snap + [ORIGINAL];
    assert original != snap && original != target && Parent(original) == snap;
    fs2 := map[[] := Dir, snap := Dir, target := Dir, original := File("text")];
    assert SnapshotOf(fs0, snap, target) == Some(fs0[original := File("text")]);
    SlotsDiffer(snap);
    assert snap + [MARKER] !in fs2;
    var dest := target + [ORIGINAL];
    assert dest !in fs2;
    assert original[|original| - 1] == ORIGINAL;
    assert RolledBack(fs2, snap, target) == (fs2[dest := File("text")], true);
    FileCovers(fs0, target, original);
  }

  // Copying an empty directory onto a directory changes nothing.
  lemma EmptyCopy(fs: FileSystem, from: Path, to: Path)
    requires from != [] && to != [] && from in fs && to in fs && fs[from] == fs[to] == Dir
    requires forall q :: q in fs && from <= q ==> q == from
    ensures CopiedTree(fs, from, to) == Some(fs)
  {
    assert Moved(from, from, to) == to;
    forall q | q in fs && from <= q ensures Landing(fs, q, from, to) == to && !Obstructed(fs, q, from, to) {
    }
    var gs := CopiedTree(fs, from, to).value;
    assert Moved(to, to, from) == from;
    assert SourceOf(fs, to, from, to) == Some(from);
    assert gs == fs;
  }

  // An empty target, and a copy that an earlier request with the same id left.
  function OldCopyDisk(): FileSystem {
    map[[] := Dir, ["target"] := Dir,
        ["snap"] := Dir, ["snap", ORIGINAL] := Dir, ["snap", ORIGINAL, "b"] := File("text")]
  }

  lemma OldCopyDiskFacts()
    ensures WellFormed(OldCopyDisk())
    ensures ["snap"] + [ORIGINAL] == ["snap", ORIGINAL] && ["snap"] + [MARKER] !in OldCopyDisk()
    ensures Apart(["snap"], ["target"]) && Apart(["snap", ORIGINAL], ["target"])
    ensures forall q :: q in OldCopyDisk() && ["target"] <= q ==> q == ["target"]
    ensures !Covers(OldCopyDisk(), ["target"], ["snap", ORIGINAL])
  {
    var fs := OldCopyDisk();
    assert Parent(["snap"]) == [] == Parent(["target"]);
    assert Parent(["snap", ORIGINAL]) == ["snap"] && Parent(["snap", ORIGINAL, "b"]) == ["snap", ORIGINAL];
    assert ["snap"][0] != ["target"][0];
    SlotsDiffer(["snap"]);
    assert ["snap", ORIGINAL] + ["b"] == ["snap", ORIGINAL, "b"] && ["target"] + ["b"] !in fs;
  }

  // Its leftovers are restored too.
  lemma OldCopyComesBack() returns (fs0: FileSystem, snap: Path, target: Path, fs2: FileSystem)
    ensures Request(fs0, snap, target, fs2) && RolledBack(fs2, snap, target).1
    ensures !OldMarker(fs0, snap) && !FileBecameDir(fs0, target, fs2) && !Covers(fs0, target, snap + [ORIGINAL])
    ensures target in fs0 && !SameTree(RolledBack(fs2, snap, target).0, target, fs0, target)
  {
    snap, target, fs0 := ["snap"], ["target"], OldCopyDisk();
    fs2 := fs0;
    var original := snap + [ORIGINAL];
    OldCopyDiskFacts();
    EmptyCopy(fs0, target, original);
    assert SnapshotOf(fs0, snap, target) == Some(fs0);
    TreeReplaced(fs0, original, target);
    RollbackRestores(fs0, snap, target, fs2);
  }

  // ---------------------------------------------------------------------------
  // Handlers.
  // ---------------------------------------------------------------------------

  // The disk a handler leaves, and whether it returned.
  type Handler = FileSystem -> (FileSystem, bool)

  // A handler called on `fs` leaves the request's snapshot alone.
  ghost predicate SparesSnapshot(handler: Handler, fs: FileSystem, snap: Path) {
    WellFormed(handler(fs).0) && AgreeBelow(fs, handler(fs).0, snap)
  }

  // What the file-update handler does to the disk: it makes the directories on the way and writes
  // the file; `succeeds` says whether the handler returns after all.
  function FileUpdate(target: Path, content: string, succeeds: bool): Handler
    requires target != []
  {
    (fs: FileSystem) =>
      match MadeDirs(fs, Parent(target))
      case None => (fs, false)
      case Some(f) => if target in f && f[target] == Dir then (f, false) else (f[target := File(content)], succeeds)
  }

  // It spares the snapshot on every file system, and never makes a directory of a file.
  lemma FileUpdateSpares(fs: FileSystem, snap: Path, target: Path, content: string, succeeds: bool)
    requires target != [] && WellFormed(fs) && snap in fs && !(snap <= target) && !(target <= snap)
    ensures SparesSnapshot(FileUpdate(target, content, succeeds), fs, snap)
    ensures target in fs && fs[target].File? ==>
              var after := FileUpdate(target, content, succeeds)(fs).0;
              target in after && after[target].File?
  {
    if MadeDirs(fs, Parent(target)).Some? {
      MadeDirsFacts(fs, Parent(target));
      var f := MadeDirs(fs, Parent(target)).value;
      assert !(snap <= Parent(target)) by { assert Parent(target) <= target; }
      MadeDirsKeepsBelow(fs, Parent(target), snap);
      if !(target in f && f[target] == Dir) {
        WithFile(f, target, content);
      }
    }
  }

  lemma SnapshotKeepsTarget(fs: FileSystem, snap: Path, target: Path)
    requires target != [] && !(snap <= target) && WellFormed(fs) && SnapshotOf(fs, snap, target).Some?
    ensures AgreeAt(fs, SnapshotOf(fs, snap, target).value, target)
  {
    SnapshotApart(fs, snap, target);
    SnapshotFrame(fs, snap, target, target);
  }

  lemma WayToExisting(fs: FileSystem, p: Path)
    requires WellFormed(fs) && p in fs && p != []
    ensures WayFree(fs, Parent(p)) && (WayFree(fs, p) <==> fs[p] == Dir)
  {
    forall q | q in fs && q <= p && q != p ensures fs[q] == Dir {
      AncestorsAreDirs(fs, p, q);
    }
    assert forall q :: q <= Parent(p) ==> q <= p && |q| < |p|;
  }

  // But for directories on the way to its own a snapshot changes nothing above that.
  lemma SnapshotAbove(fs: FileSystem, snap: Path, target: Path, q: Path)
    requires target != [] && !(snap <= q) && SnapshotOf(fs, snap, target).Some?
    ensures AgreeAt(MadeDirs(fs, snap).value, SnapshotOf(fs, snap, target).value, q)
  {
    var f, original := MadeDirs(fs, snap).value, snap + [ORIGINAL];
    assert snap <= original && snap <= snap + [MARKER];
    if target in f && f[target] == Dir {
      CopyFrame(f, target, original, q);
    } else if target in f && f[target].File? {
      assert snap <= original + [target[|target| - 1]];
    }
  }

  lemma SameWay(fs: FileSystem, gs: FileSystem, p: Path)
    requires forall q :: q <= p ==> AgreeAt(fs, gs, q)
    ensures WayFree(fs, p) <==> WayFree(gs, p)
  {
    if WayFree(fs, p) {
      forall q | q in gs && q <= p ensures gs[q] == Dir {
        assert AgreeAt(fs, gs, q);
      }
    }
    if WayFree(gs, p) {
      forall q | q in fs && q <= p ensures fs[q] == Dir {
        assert AgreeAt(fs, gs, q);
      }
    }
  }

  // A snapshot puts no file on the way to its target.
  lemma SnapshotKeepsWay(fs: FileSystem, snap: Path, target: Path)
    requires target != [] && !(snap <= target) && SnapshotOf(fs, snap, target).Some?
    ensures WayFree(SnapshotOf(fs, snap, target).value, Parent(target)) <==> WayFree(fs, Parent(target))
  {
    var f, fs1 := MadeDirs(fs, snap).value, SnapshotOf(fs, snap, target).value;
    MadeDirsFacts(fs, snap);
    forall q | q <= Parent(target) ensures AgreeAt(f, fs1, q) {
      assert q <= target && !(snap <= q);
      SnapshotAbove(fs, snap, target, q);
    }
    assert WayFree(f, Parent(target)) <==> WayFree(fs, Parent(target));
    assert forall q :: q <= Parent(target) ==> AgreeAt(f, fs1, q);
    SameWay(f, fs1, Parent(target));
  }

  // The handler returns exactly when it is to succeed, no file is in the way of the target and the
  // target is no directory; the file then holds the new text.
  lemma FileUpdateReturns(fs: FileSystem, snap: Path, target: Path, content: string, succeeds: bool)
    requires target != [] && !(snap <= target) && WellFormed(fs) && SnapshotOf(fs, snap, target).Some?
    ensures var (after, returned) := FileUpdate(target, content, succeeds)(SnapshotOf(fs, snap, target).value);
            && (returned <==> succeeds && WayFree(fs, Parent(target)) && !(target in fs && fs[target] == Dir))
            && (returned ==> target in after && after[target] == File(content))
  {
    var fs1 := SnapshotOf(fs, snap, target).value;
    SnapshotKeepsWellFormed(fs, snap, target);
    SnapshotKeepsWay(fs, snap, target);
    SnapshotKeepsTarget(fs, snap, target);
    MadeDirsSucceeds(fs1, Parent(target));
    if MadeDirs(fs1, Parent(target)).Some? {
      MadeDirsFacts(fs1, Parent(target));
    }
  }

  // What the handler leaves of an existing target when it raises: still of the same kind.
  lemma FileUpdateKeepsKind(fs: FileSystem, target: Path, content: string, succeeds: bool)
    requires target != [] && WellFormed(fs) && target in fs
    ensures var after := FileUpdate(target, content, succeeds)(fs).0;
            target in after && SameKind(after[target], fs[target])
  {
    WayToExisting(fs, target);
    MadeDirsSucceeds(fs, Parent(target));
    MadeDirsFacts(fs, Parent(target));
  }

  // After a file update that raises the rollback succeeds, whatever the reason, unless the target
  // is a file and an earlier use of the id left a directory in the place of its copy.
  lemma FileUpdateCanRollBack(fs: FileSystem, snap: Path, target: Path, after: FileSystem)
    requires Request(fs, snap, target, after)
    requires target in fs ==> target in after && SameKind(after[target], fs[target])
    ensures CanRollBack(after, snap, target) <==>
            OldMarker(fs, snap) || target !in fs || fs[target] == Dir || Covers(fs, target, snap + [ORIGINAL])
  {
    var original := snap + [ORIGINAL];
    RollbackSucceeds(fs, snap, target, after);
    if !OldMarker(fs, snap) && target in fs {
      SnapshotFound(fs, snap, target, after);
      WayToExisting(after, target);
      assert snap <= original;
      if fs[target].File? {
        SnapshotHoldsFile(fs, snap, target);
      }
    }
  }

  // A run of the file-update handler, from the disk before the snapshot.
  lemma FileUpdateOutcome(fs: FileSystem, snap: Path, target: Path, content: string, succeeds: bool)
    requires target != [] && !(snap <= target) && WellFormed(fs) && SnapshotOf(fs, snap, target).Some?
    ensures var handler, taken := FileUpdate(target, content, succeeds), SnapshotOf(fs, snap, target).value;
            var (after, returned) := handler(taken);
            && SparesSnapshot(handler, taken, snap)
            && (returned <==> succeeds && WayFree(fs, Parent(target)) && !(target in fs && fs[target] == Dir))
            && (returned ==> target in after && after[target] == File(content))
            && !FileBecameDir(fs, target, after)
            && (CanRollBack(after, snap, target) <==>
                OldMarker(fs, snap) || target !in fs || fs[target] == Dir || Covers(fs, target, snap + [ORIGINAL]))
  {
    var taken := SnapshotOf(fs, snap, target).value;
    SnapshotKeepsWellFormed(fs, snap, target);
    SnapshotKeepsPlace(fs, snap, target);
    SnapshotApart(fs, snap, target);
    SnapshotKeepsTarget(fs, snap, target);
    FileUpdateSpares(taken, snap, target, content, succeeds);
    FileUpdateReturns(fs, snap, target, content, succeeds);
    if target in fs {
      FileUpdateKeepsKind(taken, target, content, succeeds);
    }
    FileUpdateCanRollBack(fs, snap, target, FileUpdate(target, content, succeeds)(taken).0);
  }

  datatype Outcome = Executed | Failed | RolledBackOk | SnapshotRaised

  // The disk as the executor sees it.
  class Workspace {
    var fs: FileSystem

    // False when it raises, which the executor does not catch.
    method SnapshotTarget(snap: Path, target: Path) returns (ok: bool)
      requires target != []
      modifies this
      ensures ok <==> old(SnapshotOf(fs, snap, target)).Some?
      ensures ok ==> old(SnapshotOf(fs, snap, target)) == Some(fs)
    {
      var made := MadeDirs(fs, snap);
      if made.None? {
        return false;
      }
      fs := made.value;
      if target !in fs {
        var marker := snap + [MARKER];
        if marker in fs && fs[marker] == Dir {
          return false;
        }
        fs := fs[marker := File("target path")];
        return true;
      }
      if target <= snap {
        return false;
      }
      var dest := snap + [ORIGINAL];
      if fs[target].File? {
        var copied := CopiedFile(fs, target, dest);
        if copied.Some? {
          fs := copied.value;
        }
        return copied.Some?;
      }
      var copied := CopiedTree(fs, target, dest);
      if copied.Some? {
        fs := copied.value;
      }
      return copied.Some?;
    }

    method Rollback(snap: Path, target: Path) returns (ok: bool)
      requires target != []
      modifies this
      ensures (fs, ok) == old(RolledBack(fs, snap, target))
    {
      var original := snap + [ORIGINAL];
      if snap !in fs {
        return false;
      }
      if snap + [MARKER] in fs {
        fs := WithoutTree(fs, target);
        return true;
      }
      if original !in fs {
        return false;
      }
      if fs[original].File? {
        var made := MadeDirs(fs, Parent(target));
        if made.None? {
          return false;
        }
        MadeDirsFacts(fs, Parent(target));
        fs := made.value;
        var copied := CopiedFile(fs, original, target);
        if copied.None? {
          return false;
        }
        fs := copied.value;
        return true;
      }
      if target in fs && fs[target].File? {
        return false;
      }
      fs := WithoutTree(fs, target);
      var made := MadeDirs(fs, target);
      if made.None? {
        return false;
      }
      fs := made.value;
      var copied := CopiedTree(fs, original, target);
      if copied.None? {
        return false;
      }
      fs := copied.value;
      return true;
    }

    // A real run of a handler that mutates its target.
    method RunMutatingHandler(snap: Path, target: Path, handler: Handler) returns (outcome: Outcome)
      requires target != [] && WellFormed(fs) && !(snap <= target)
      requires var taken := SnapshotOf(fs, snap, target);
               taken.Some? ==> SparesSnapshot(handler, taken.value, snap)
      modifies this
      ensures outcome == SnapshotRaised <==> SnapshotOf(old(fs), snap, target).None?
      ensures outcome != SnapshotRaised ==>
                var (after, returned) := handler(SnapshotOf(old(fs), snap, target).value);
                && (outcome == Executed <==> returned)
                && (returned ==> fs == after)
                && (!returned ==> (fs, outcome == RolledBackOk) == RolledBack(after, snap, target))
                && (!returned ==> (outcome == RolledBackOk <==> CanRollBack(after, snap, target)))
                && (outcome == RolledBackOk ==>
                      (SameTree(fs, target, old(fs), target) <==> Restorable(old(fs), snap, target, after)))
    {
      ghost var before := fs;
      var taken := SnapshotTarget(snap, target);
      if !taken {
        return SnapshotRaised;
      }
      SnapshotKeepsWellFormed(before, snap, target);
      var (after, returned) := handler(fs);
      fs := after;
      if returned {
        return Executed;
      }
      RollbackSucceeds(before, snap, target, after);
      var ok := Rollback(snap, target);
      if ok {
        RollbackRestores(before, snap, target, after);
        return RolledBackOk;
      }
      return Failed;
    }

    // With a fresh id a file update that raises, whatever the reason, is rolled back and leaves its
    // target as it was. What an earlier use of the id left behind is all that can keep it from that.
    method RunFileUpdate(snap: Path, target: Path, content: string, succeeds: bool) returns (outcome: Outcome)
      requires target != [] && WellFormed(fs) && !(snap <= target)
      modifies this
      ensures FreshId(old(fs), snap) ==>
                (outcome == SnapshotRaised <==> !WayFree(old(fs), snap) || target <= snap)
      ensures outcome != SnapshotRaised ==>
                (outcome == Executed <==>
                 succeeds && WayFree(old(fs), Parent(target)) && !(target in old(fs) && old(fs)[target] == Dir))
      ensures outcome == Executed ==> target in fs && fs[target] == File(content)
      ensures outcome == RolledBackOk ==>
                (SameTree(fs, target, old(fs), target) <==>
                 target in old(fs) ==> !OldMarker(old(fs), snap) && Covers(old(fs), target, snap + [ORIGINAL]))
      ensures outcome == Failed ==>
                && target in old(fs) && old(fs)[target].File?
                && !OldMarker(old(fs), snap) && !Covers(old(fs), target, snap + [ORIGINAL])
      ensures FreshId(old(fs), snap) && outcome != SnapshotRaised && outcome != Executed ==>
                outcome == RolledBackOk && SameTree(fs, target, old(fs), target)
    {
      ghost var taken := SnapshotOf(fs, snap, target);
      if FreshId(fs, snap) {
        SnapshotSucceeds(fs, snap, target);
        FreshCovers(fs, snap, target);
      }
      if taken.Some? {
        FileUpdateOutcome(fs, snap, target, content, succeeds);
      }
      outcome := RunMutatingHandler(snap, target, FileUpdate(target, content, succeeds));
    }
  }
}
