/** Volumes whose places overlap: which completed swaps lose a tree, and that two volumes are kept on every
    file system exactly when none of their places stands at or in one of the other's. */
module SwapOverlaps {
  import opened Wrappers
  import opened RemoteFs
  import opened SwapVolumes

  /** Neither staged tree stands at, in or above a place of the other volume. */
  predicate StagedApart(a: Volume, t: Volume) {
    Clear(a, t.staged) && Clear(t, a.staged)
  }

  /** The run from `fs`, if these trees wait in it and it goes through, leaves both new trees active and
      both old ones as backups. */
  predicate Kept(fs: Node, a: Volume, t: Volume, oldA: Node, newA: Node, oldT: Node, newT: Node) {
    var o := RunAll(fs, SwapCommands(a, t));
    Waiting(fs, a, Some(oldA), newA) && Waiting(fs, t, Some(oldT), newT) && o.Done? ==>
      Swapped(o.fs, a, Some(oldA), newA) && Swapped(o.fs, t, Some(oldT), newT)
  }

  ghost predicate KeepsBoth(a: Volume, t: Volume) {
    forall fs, oldA, newA, oldT, newT :: Kept(fs, a, t, oldA, newA, oldT, newT)
  }

  // ----- the ways to overlap -----------------------------------------------------------------------------

  lemma BelowSibling(p: Path, q: Path, s: Path)
    requires p <= q && p != q && q != [] && s != [] && Parent(q) == Parent(s)
    ensures p <= s
  {
    assert p <= Parent(q);
    assert Parent(s) <= s;
  }

  /** Volumes that are not apart have an active path of one at or below the other's, or the second's at or
      below the first's backup, or the first's at or below the second's backup. */
  lemma FourWaysToOverlap(a: Volume, t: Volume)
    requires Sound(a) && Sound(t) && StagedApart(a, t)
    ensures !Apart(a, t) <==>
              a.active <= t.active || t.active <= a.active || a.backup <= t.active || t.backup <= a.active
  {
    assert Parent(a.backup) == Parent(a.active) && Parent(t.backup) == Parent(t.active);
    if t.active <= a.backup && t.active != a.backup { BelowSibling(t.active, a.backup, a.active); }
    if a.active <= t.backup && a.active != t.backup { BelowSibling(a.active, t.backup, t.active); }
    if !Unrelated(a.backup, t.backup) { BackupsOverlap(a, t); }
  }

  lemma BackupsOverlap(a: Volume, t: Volume)
    requires Sound(a) && Sound(t) && !Unrelated(a.backup, t.backup)
    ensures a.active == t.active || a.backup <= t.active || t.backup <= a.active
  {
    if a.backup == t.backup {
      assert Parent(a.backup) == Parent(a.active) && Parent(t.backup) == Parent(t.active);
      assert Last(a.active) + ".previous" == Last(a.backup) == Last(t.backup) == Last(t.active) + ".previous";
      SamePrefix(Last(a.active), Last(t.active), ".previous");
      assert a.active == Parent(a.active) + [Last(a.active)] && t.active == Parent(t.active) + [Last(t.active)];
    } else if a.backup <= t.backup {
      BelowSibling(a.backup, t.backup, t.active);
    } else {
      BelowSibling(t.backup, a.backup, a.active);
    }
  }

  lemma SamePrefix(a: string, b: string, end: string)
    requires a + end == b + end
    ensures a == b
  {
    assert |a| == |b|;
    assert a == (a + end)[..|a|] && b == (b + end)[..|b|];
  }

  // ----- what is lost, on every file system ------------------------------------------------------------------

  /** A run of both volumes from the two old trees and the two staged ones that goes through. */
  predicate Completed(fs: Node, a: Volume, t: Volume, oldA: Node, newA: Node, oldT: Node, newT: Node) {
    && Sound(a) && Sound(t) && StagedApart(a, t)
    && Waiting(fs, a, Some(oldA), newA) && Waiting(fs, t, Some(oldT), newT)
    && RunAll(fs, SwapCommands(a, t)).Done?
  }

  /** The first volume's commands swap it; the second's then swap whatever stands at its active place. */
  lemma Halves(fs: Node, a: Volume, t: Volume, oldA: Option<Node>, newA: Node, newT: Node) returns (mid: Node)
    requires Sound(a) && Sound(t) && Clear(a, t.staged)
    requires Waiting(fs, a, oldA, newA) && Get(fs, t.staged) == Some(newT) && CanMake(fs, a.parent)
    ensures mid == RunAll(fs, VolumeCommands(a)).fs && Swapped(mid, a, oldA, newA)
    ensures Waiting(mid, t, Get(mid, t.active), newT)
    ensures var o := RunAll(fs, SwapCommands(a, t));
            (o.Done? <==> CanMake(mid, t.parent)) && (o.Done? ==> Swapped(o.fs, t, Get(mid, t.active), newT))
  {
    RunAllJoins(fs, VolumeCommands(a), VolumeCommands(t));
    VolumeRuns(fs, a, oldA, newA);
    mid := RunAll(fs, VolumeCommands(a)).fs;
    CommandsSpare(a, t.staged);
    RunAllLeaves(fs, VolumeCommands(a));
    ScriptSpares(fs, VolumeCommands(a), t.staged, mid);
    VolumeRuns(mid, t, Get(mid, t.active), newT);
  }

  lemma CompletedHalves(fs: Node, a: Volume, t: Volume, oldA: Node, newA: Node, oldT: Node, newT: Node)
    returns (mid: Node)
    requires Completed(fs, a, t, oldA, newA, oldT, newT)
    ensures mid == RunAll(fs, VolumeCommands(a)).fs && Swapped(mid, a, Some(oldA), newA)
    ensures Swapped(RunAll(fs, SwapCommands(a, t)).fs, t, Get(mid, t.active), newT)
  {
    RunAllJoins(fs, VolumeCommands(a), VolumeCommands(t));
    VolumeRuns(fs, a, Some(oldA), newA);
    mid := Halves(fs, a, t, Some(oldA), newA, newT);
  }

  /** Second inside the first: what the second backs up is a piece of the new first tree, not its old one. */
  lemma SecondInsideFirst(fs: Node, a: Volume, t: Volume, oldA: Node, newA: Node, oldT: Node, newT: Node)
    requires Completed(fs, a, t, oldA, newA, oldT, newT) && a.active <= t.active
    ensures var piece := Get(newA, t.active[|a.active|..]);
            Get(RunAll(fs, SwapCommands(a, t)).fs, t.backup) == piece
  {
    var mid := CompletedHalves(fs, a, t, oldA, newA, oldT, newT);
    PrefixIsBelow(a.active, t.active);
    GetBelow(mid, a.active, t.active[|a.active|..]);
  }

  /** First inside the second: the new first tree is carried off into the second's backup. */
  lemma FirstInsideSecond(fs: Node, a: Volume, t: Volume, oldA: Node, newA: Node, oldT: Node, newT: Node)
    requires Completed(fs, a, t, oldA, newA, oldT, newT) && t.active <= a.active
    ensures var end := RunAll(fs, SwapCommands(a, t)).fs; var rest := a.active[|t.active|..];
            Get(end, t.backup + rest) == Some(newA) && Get(end, a.active) == Get(newT, rest)
  {
    var mid := CompletedHalves(fs, a, t, oldA, newA, oldT, newT);
    var end := RunAll(fs, SwapCommands(a, t)).fs;
    var rest := a.active[|t.active|..];
    PrefixIsBelow(t.active, a.active);
    GetBelow(mid, t.active, rest);
    GetBelow(end, t.active, rest);
    GetBelow(end, t.backup, rest);
  }

  /** Second at or inside the first's backup: its live tree is removed, and the old first tree, or a piece
      of it, stands there instead and is what the second backs up. */
  lemma SecondInsideFirstBackup(fs: Node, a: Volume, t: Volume, oldA: Node, newA: Node, oldT: Node, newT: Node)
    requires Completed(fs, a, t, oldA, newA, oldT, newT) && a.backup <= t.active
    ensures var piece := Get(oldA, t.active[|a.backup|..]);
            && Get(RunAll(fs, VolumeCommands(a)).fs, t.active) == piece
            && Get(RunAll(fs, SwapCommands(a, t)).fs, t.backup) == piece
  {
    var mid := CompletedHalves(fs, a, t, oldA, newA, oldT, newT);
    PrefixIsBelow(a.backup, t.active);
    GetBelow(mid, a.backup, t.active[|a.backup|..]);
  }

  /** First at or inside the second's backup: the new first tree is removed, and the old second tree, or a
      piece of it, stands there instead. */
  lemma FirstInsideSecondBackup(fs: Node, a: Volume, t: Volume, oldA: Node, newA: Node, oldT: Node, newT: Node)
    requires Completed(fs, a, t, oldA, newA, oldT, newT) && t.backup <= a.active
    ensures Get(RunAll(fs, SwapCommands(a, t)).fs, a.active) == Get(oldT, a.active[|t.backup|..])
  {
    var mid := CompletedHalves(fs, a, t, oldA, newA, oldT, newT);
    SecondStandsAside(a, t);
    CommandsSpare(a, t.active);
    RunAllLeaves(fs, VolumeCommands(a));
    ScriptSpares(fs, VolumeCommands(a), t.active, mid);
    PrefixIsBelow(t.backup, a.active);
    GetBelow(RunAll(fs, SwapCommands(a, t)).fs, t.backup, a.active[|t.backup|..]);
  }

  lemma SecondStandsAside(a: Volume, t: Volume)
    requires Sound(a) && Sound(t) && t.backup <= a.active
    ensures Unrelated(a.active, t.active) && Unrelated(a.backup, t.active)
  {
    SiblingsUnrelated(t);
    BesideStaysAside(t.active, t.backup, a.active);
    assert Parent(a.backup) == Parent(a.active);
    if t.backup == a.active {
      assert |a.backup| == |t.active|;
      assert Last(a.backup) == Last(t.active) + ".previous" + ".previous";
      assert |Last(a.backup)| > |Last(t.active)|;
    } else {
      BelowSibling(t.backup, a.active, a.backup);
      BesideStaysAside(t.active, t.backup, a.backup);
    }
  }

  lemma BesideStaysAside(p: Path, q: Path, r: Path)
    requires |p| == |q| && Unrelated(p, q) && q <= r
    ensures Unrelated(r, p)
  {
  }

  // ----- overlapping volumes are kept only where the trees happen to agree -----------------------------------

  /** Where a place of one volume stands in a place of the other, the trees put there hold one another. */
  predicate Agree(a: Volume, t: Volume, oldA: Node, newA: Node, oldT: Node, newT: Node) {
    && (a.active <= t.active ==> Get(newA, t.active[|a.active|..]) == Some(newT))
    && (t.active <= a.active ==> Get(newT, a.active[|t.active|..]) == Some(newA))
    && (a.backup <= t.active ==> Get(oldA, t.active[|a.backup|..]) == Some(newT))
    && (t.backup <= a.active ==> Get(oldT, a.active[|t.backup|..]) == Some(newA))
  }

  lemma SwappedAgree(end: Node, a: Volume, t: Volume, oldA: Node, newA: Node, oldT: Node, newT: Node)
    requires Swapped(end, a, Some(oldA), newA) && Swapped(end, t, Some(oldT), newT)
    ensures Agree(a, t, oldA, newA, oldT, newT)
  {
    HeldBelow(end, a.active, t.active);
    HeldBelow(end, t.active, a.active);
    HeldBelow(end, a.backup, t.active);
    HeldBelow(end, t.backup, a.active);
  }

  lemma HeldBelow(end: Node, p: Path, q: Path)
    ensures p <= q && Exists(end, p) ==> Get(end, q) == Get(Get(end, p).value, q[|p|..])
  {
    if p <= q {
      PrefixIsBelow(p, q);
      GetBelow(end, p, q[|p|..]);
    }
  }

  // ----- a file system where everything goes through ---------------------------------------------------------

  /** Directories only: nothing stands in the way of making one. */
  ghost predicate NoFiles(fs: Node) { forall r :: !IsFile(fs, r) }

  lemma PutNoFiles(fs: Node, p: Path, n: Node)
    requires NoFiles(fs) && NoFiles(n)
    ensures NoFiles(Put(fs, p, n))
  {
    forall r ensures !IsFile(Put(fs, p, n), r) {
      if p <= r {
        GetPut(fs, p, n);
        HeldBelow(Put(fs, p, n), p, r);
        assert !IsFile(n, r[|p|..]);
      } else {
        PutNoFile(fs, p, n, r);
      }
    }
  }

  lemma TreeNoFiles(fs: Node, p: Path)
    requires NoFiles(fs) && Exists(fs, p)
    ensures NoFiles(Get(fs, p).value)
  {
    forall r ensures !IsFile(Get(fs, p).value, r) {
      GetBelow(fs, p, r);
      assert !IsFile(fs, p + r);
    }
  }

  lemma DeleteNoFiles(fs: Node, p: Path)
    requires NoFiles(fs)
    ensures NoFiles(Delete(fs, p))
  {
    forall r ensures !IsFile(Delete(fs, p), r) { DeleteNoFile(fs, p, r); }
  }

  lemma MakeNoFiles(fs: Node, p: Path)
    requires NoFiles(fs)
    ensures NoFiles(MakeDirs(fs, p))
  {
    forall r ensures !IsFile(MakeDirs(fs, p), r) { MakeNoFile(fs, p, r); }
  }

  lemma {:induction false} ExecNoFiles(fs: Node, c: Command)
    requires NoFiles(fs)
    ensures NoFiles(Exec(fs, c).fs)
    decreases c
  {
    match c
    case MkdirP(p) => MakeNoFiles(fs, p);
    case RmRf(p) => DeleteNoFiles(fs, p);
    case Mv(src, dst) =>
      if src != [] && CanMove(fs, src, MvTarget(fs, src, dst)) {
        TreeNoFiles(fs, src);
        DeleteNoFiles(fs, src);
        PutNoFiles(Delete(fs, src), MvTarget(fs, src, dst), Get(fs, src).value);
      }
    case Cp(src, _) => assert !IsFile(fs, src);
    case Chmod(_) =>
    case WhenExists(_, body) => ExecNoFiles(fs, body);
    case WhenFile(_, body) => ExecNoFiles(fs, body);
  }

  lemma {:induction false} RunNoFiles(fs: Node, script: seq<Command>)
    requires NoFiles(fs)
    ensures NoFiles(RunAll(fs, script).fs)
    decreases |script|
  {
    if script != [] {
      ExecNoFiles(fs, script[0]);
      if Exec(fs, script[0]).Done? { RunNoFiles(Exec(fs, script[0]).fs, script[1..]); }
    }
  }

  lemma NoFilesCanMake(fs: Node, p: Path)
    requires NoFiles(fs)
    ensures CanMake(fs, p)
  {
    CanMakeMeans(fs, p);
  }

  /** Without files every swap goes through, however the volumes lie. */
  lemma NoFilesSwapRuns(fs: Node, a: Volume, t: Volume, oldA: Option<Node>, newA: Node, newT: Node)
    requires Sound(a) && Sound(t) && Clear(a, t.staged) && NoFiles(fs)
    requires Waiting(fs, a, oldA, newA) && Get(fs, t.staged) == Some(newT)
    ensures RunAll(fs, SwapCommands(a, t)).Done?
  {
    NoFilesCanMake(fs, a.parent);
    var mid := Halves(fs, a, t, oldA, newA, newT);
    RunNoFiles(fs, VolumeCommands(a));
    NoFilesCanMake(mid, t.parent);
  }

  /** Directories at both paths. */
  lemma BothMade(p: Path, q: Path) returns (fs: Node)
    ensures NoFiles(fs) && Exists(fs, p) && Exists(fs, q)
  {
    EmptyHasNoFiles();
    var first := MakeDirs(EMPTY_DIR, p);
    MakeNoFiles(EMPTY_DIR, p);
    NoFilesCanMake(EMPTY_DIR, p);
    MadeDirIsThere(EMPTY_DIR, p);
    fs := MakeDirs(first, q);
    MakeNoFiles(first, q);
    NoFilesCanMake(first, q);
    MadeDirIsThere(first, q);
    if p <= q {
      PrefixIsBelow(p, q);
      GetBelow(fs, p, q[|p|..]);
    } else {
      GetMakeDirs(first, q, p);
    }
  }

  lemma EmptyHasNoFiles()
    ensures NoFiles(EMPTY_DIR)
  {
    forall r: Path ensures !IsFile(EMPTY_DIR, r) { EmptyHasNothing(r); }
  }

  /** Both old trees in place, and any two trees of directories staged. */
  lemma Prepared(a: Volume, t: Volume, newA: Node, newT: Node, base: Node) returns (fs: Node)
    requires StagedApart(a, t) && NoFiles(newA) && NoFiles(newT) && NoFiles(base)
    requires Sound(a) && Sound(t)
    ensures NoFiles(fs) && Waiting(fs, a, Get(base, a.active), newA) && Waiting(fs, t, Get(base, t.active), newT)
  {
    var one := Put(base, a.staged, newA);
    fs := Put(one, t.staged, newT);
    PutNoFiles(base, a.staged, newA);
    PutNoFiles(one, t.staged, newT);
    GetPut(base, a.staged, newA);
    GetPut(one, t.staged, newT);
    GetPutElsewhere(one, t.staged, a.staged, newT);
    GetPutElsewhere(one, t.staged, a.active, newT);
    GetPutElsewhere(one, t.staged, t.active, newT);
    GetPutElsewhere(base, a.staged, a.active, newA);
    GetPutElsewhere(base, a.staged, t.active, newA);
  }

  /** A tree of directories other than the one found. */
  function OtherThan(found: Option<Node>): Node {
    if found == Some(EMPTY_DIR) then Put(EMPTY_DIR, ["kept"], EMPTY_DIR) else EMPTY_DIR
  }

  lemma OtherHasNoFiles(found: Option<Node>)
    ensures NoFiles(OtherThan(found)) && Some(OtherThan(found)) != found
  {
    EmptyHasNoFiles();
    PutNoFiles(EMPTY_DIR, ["kept"], EMPTY_DIR);
    GetPut(EMPTY_DIR, ["kept"], EMPTY_DIR);
    EmptyHasNothing(["kept"]);
  }

  /** New trees that do not agree with the old ones, for volumes that overlap. */
  lemma Disagreeing(a: Volume, t: Volume, oldA: Node, oldT: Node) returns (newA: Node, newT: Node)
    requires a.active <= t.active || t.active <= a.active || a.backup <= t.active || t.backup <= a.active
    ensures NoFiles(newA) && NoFiles(newT) && !Agree(a, t, oldA, newA, oldT, newT)
  {
    newA, newT := EMPTY_DIR, EMPTY_DIR;
    EmptyHasNoFiles();
    if a.active <= t.active {
      newT := OtherThan(Get(EMPTY_DIR, t.active[|a.active|..]));
      OtherHasNoFiles(Get(EMPTY_DIR, t.active[|a.active|..]));
    } else if t.active <= a.active {
      newA := OtherThan(Get(EMPTY_DIR, a.active[|t.active|..]));
      OtherHasNoFiles(Get(EMPTY_DIR, a.active[|t.active|..]));
    } else if a.backup <= t.active {
      newT := OtherThan(Get(oldA, t.active[|a.backup|..]));
      OtherHasNoFiles(Get(oldA, t.active[|a.backup|..]));
    } else {
      newA := OtherThan(Get(oldT, a.active[|t.backup|..]));
      OtherHasNoFiles(Get(oldT, a.active[|t.backup|..]));
    }
  }

  /** Every overlap has a run that goes through and loses a tree. */
  lemma OverlapLoses(a: Volume, t: Volume)
    requires Sound(a) && Sound(t) && StagedApart(a, t) && !Apart(a, t)
    ensures !KeepsBoth(a, t)
  {
    FourWaysToOverlap(a, t);
    var base := BothMade(a.active, t.active);
    var oldA, oldT := Get(base, a.active).value, Get(base, t.active).value;
    var newA, newT := Disagreeing(a, t, oldA, oldT);
    var fs := Prepared(a, t, newA, newT, base);
    NoFilesSwapRuns(fs, a, t, Some(oldA), newA, newT);
    LosesOne(fs, a, t, oldA, newA, oldT, newT);
  }

  lemma LosesOne(fs: Node, a: Volume, t: Volume, oldA: Node, newA: Node, oldT: Node, newT: Node)
    requires Waiting(fs, a, Some(oldA), newA) && Waiting(fs, t, Some(oldT), newT)
    requires RunAll(fs, SwapCommands(a, t)).Done? && !Agree(a, t, oldA, newA, oldT, newT)
    ensures !KeepsBoth(a, t)
  {
    var end := RunAll(fs, SwapCommands(a, t)).fs;
    if Swapped(end, a, Some(oldA), newA) && Swapped(end, t, Some(oldT), newT) {
      SwappedAgree(end, a, t, oldA, newA, oldT, newT);
    }
    assert !Kept(fs, a, t, oldA, newA, oldT, newT);
  }

  /** Two volumes, their staged trees aside, are kept by every run that goes through if and only if none of
      their places stands at or in one of the other's. */
  lemma SwapsBothIffApart(a: Volume, t: Volume)
    requires Sound(a) && Sound(t) && StagedApart(a, t)
    ensures KeepsBoth(a, t) <==> Apart(a, t)
  {
    if Apart(a, t) { ApartKeeps(a, t); } else { OverlapLoses(a, t); }
  }

  lemma ApartKeeps(a: Volume, t: Volume)
    requires Sound(a) && Sound(t) && Apart(a, t)
    ensures KeepsBoth(a, t)
  {
    OneSparesTheOther(a, t);
    ApartBothWays(a, t);
    OneSparesTheOther(t, a);
    forall fs, oldA, newA, oldT, newT ensures Kept(fs, a, t, oldA, newA, oldT, newT) {
      if Waiting(fs, a, Some(oldA), newA) && Waiting(fs, t, Some(oldT), newT) {
        SwapRuns(fs, a, t, Some(oldA), newA, Some(oldT), newT);
      }
    }
  }
}
