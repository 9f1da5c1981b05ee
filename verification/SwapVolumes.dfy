/** The script that puts a staged configuration in place of the active one: what any stop may leave, what
    a full run does, and for which paths it works. */
module SwapVolumes {
  import opened Wrappers
  import opened RemoteFs
  import opened PathText

  // ----- the script ------------------------------------------------------------------------------------------

  /** One of the two trees that are swapped. */
  datatype Volume = Volume(staged: Path, active: Path, backup: Path, parent: Path)

  function VolumeCommands(v: Volume): seq<Command> {
    [MkdirP(v.parent)] + ([RmRf(v.backup)]
                          + ([WhenExists(v.active, Mv(v.active, v.backup))] + ([Mv(v.staged, v.active)] + [])))
  }

  function SwapCommands(asterisk: Volume, tftp: Volume): seq<Command> {
    VolumeCommands(asterisk) + VolumeCommands(tftp)
  }

  /** The volume a settings path and a staging directory make. */
  function VolumeAt(staging: Path, name: string, active: string): Volume {
    Volume(staging + [name], Parse(active), Parse(active + ".previous"), Parse(DirName(active)))
  }

  // ----- where the trees are -----------------------------------------------------------------------------------

  /** The old tree is active, the new one staged. */
  predicate Waiting(fs: Node, v: Volume, was: Option<Node>, next: Node) {
    Get(fs, v.active) == was && Get(fs, v.staged) == Some(next)
  }

  /** The old tree is the backup, the new one staged. */
  predicate Aside(fs: Node, v: Volume, was: Option<Node>, next: Node) {
    Get(fs, v.active) == None && Get(fs, v.backup) == was && Get(fs, v.staged) == Some(next)
  }

  /** The old tree is the backup, the new one active. */
  predicate Swapped(fs: Node, v: Volume, was: Option<Node>, next: Node) {
    Get(fs, v.active) == Some(next) && Get(fs, v.backup) == was && Get(fs, v.staged) == None
  }

  predicate InPhase(fs: Node, v: Volume, was: Option<Node>, next: Node) {
    Waiting(fs, v, was, next) || Aside(fs, v, was, next) || Swapped(fs, v, was, next)
  }

  /** The backup stands beside the active tree. */
  predicate BackupBeside(v: Volume) {
    v.active != [] && v.parent == Parent(v.active) && v.backup == v.parent + [Last(v.active) + ".previous"]
  }

  /** And the staged tree stands apart from both. */
  predicate Sound(v: Volume) {
    && BackupBeside(v)
    && Unrelated(v.staged, v.active) && Unrelated(v.staged, v.backup)
  }

  predicate Clear(v: Volume, q: Path) {
    Unrelated(v.staged, q) && Unrelated(v.active, q) && Unrelated(v.backup, q)
  }

  predicate Apart(v: Volume, w: Volume) {
    Clear(v, w.staged) && Clear(v, w.active) && Clear(v, w.backup)
  }

  lemma SiblingsUnrelated(v: Volume)
    requires BackupBeside(v)
    ensures Unrelated(v.active, v.backup) && Unrelated(v.backup, v.active)
  {
    assert |v.active| == |v.backup| && v.active[|v.active| - 1] != v.backup[|v.backup| - 1] by {
      assert |Last(v.active) + ".previous"| > |Last(v.active)|;
    }
  }

  lemma NotAboveParent(p: Path, q: Path)
    requires p != [] && (q == p || Unrelated(q, p))
    ensures !(q <= Parent(p))
  {
    assert Parent(p) <= p;
  }

  lemma CommandsSpare(v: Volume, q: Path)
    requires Sound(v) && Clear(v, q)
    ensures AllSpare(VolumeCommands(v), q)
  {
    NotAboveParent(v.active, q);
  }

  /** Staging is not within, above or at the volume's places. */
  predicate Beside(staging: Path, v: Volume) {
    Unrelated(v.active, staging) && Unrelated(v.backup, staging)
  }

  lemma UnrelatedBelow(p: Path, q: Path, r: Path)
    requires Unrelated(p, q)
    ensures Unrelated(p, q + r)
  {
    assert |q| < |p| ==> !(q <= p);
    assert (q + r)[..|q|] == q;
    assert |p| <= |q| ==> (q + r)[..|p|] == q[..|p|];
  }

  // ----- directories stay directories --------------------------------------------------------------------------

  lemma {:induction false} ParentIsDir(fs: Node, p: Path)
    requires p != [] && Exists(fs, p)
    ensures IsDir(fs, Parent(p))
    decreases |p|
  {
    if |p| > 1 {
      ParentIsDir(Kids(fs)[p[0]], p[1..]);
      assert Parent(p)[1..] == Parent(p[1..]);
    }
  }

  lemma {:induction false} DeleteKeepsDir(fs: Node, p: Path, q: Path)
    requires q < p && IsDir(fs, q)
    ensures IsDir(Delete(fs, p), q)
    decreases |p|
  {
    if q != [] && |p| > 1 {
      assert q[1..] < p[1..];
      DeleteKeepsDir(Kids(fs)[p[0]], p[1..], q[1..]);
    }
  }

  // ----- the four commands ---------------------------------------------------------------------------------------

  /** Ready to set the old tree aside: its directory is there, and no backup. */
  predicate Cleared(fs: Node, v: Volume, was: Option<Node>, next: Node) {
    Waiting(fs, v, was, next) && Get(fs, v.backup) == None && IsDir(fs, v.parent)
  }

  lemma MkdirStep(fs: Node, v: Volume, was: Option<Node>, next: Node)
    requires Sound(v) && Waiting(fs, v, was, next)
    ensures forall left | MayLeave(fs, MkdirP(v.parent), left) :: Waiting(left, v, was, next)
    ensures var o := Exec(fs, MkdirP(v.parent));
            (o.Done? <==> CanMake(fs, v.parent)) && (o.Done? ==> Waiting(o.fs, v, was, next) && IsDir(o.fs, v.parent))
  {
    NotAboveParent(v.active, v.active);
    NotAboveParent(v.active, v.staged);
    forall left | MayLeave(fs, MkdirP(v.parent), left) ensures Waiting(left, v, was, next) {
      Spared(fs, MkdirP(v.parent), v.active, left);
      Spared(fs, MkdirP(v.parent), v.staged, left);
    }
    SparedByExec(fs, MkdirP(v.parent), v.active);
    SparedByExec(fs, MkdirP(v.parent), v.staged);
    if CanMake(fs, v.parent) { MadeDirIsThere(fs, v.parent); }
  }

  lemma RemoveStep(fs: Node, v: Volume, was: Option<Node>, next: Node)
    requires Sound(v) && Waiting(fs, v, was, next) && IsDir(fs, v.parent)
    ensures forall left | MayLeave(fs, RmRf(v.backup), left) :: Waiting(left, v, was, next)
    ensures Exec(fs, RmRf(v.backup)).Done? && Cleared(Exec(fs, RmRf(v.backup)).fs, v, was, next)
  {
    SiblingsUnrelated(v);
    forall left | MayLeave(fs, RmRf(v.backup), left) ensures Waiting(left, v, was, next) {
      Spared(fs, RmRf(v.backup), v.active, left);
      Spared(fs, RmRf(v.backup), v.staged, left);
    }
    SparedByExec(fs, RmRf(v.backup), v.active);
    SparedByExec(fs, RmRf(v.backup), v.staged);
    GetDelete(fs, v.backup);
    DeleteKeepsDir(fs, v.backup, v.parent);
  }

  lemma SetAsideStep(fs: Node, v: Volume, was: Option<Node>, next: Node)
    requires Sound(v) && Cleared(fs, v, was, next)
    ensures var c := WhenExists(v.active, Mv(v.active, v.backup));
            && Exec(fs, c).Done? && Aside(Exec(fs, c).fs, v, was, next) && IsDir(Exec(fs, c).fs, v.parent)
            && forall left | MayLeave(fs, c, left) :: left == fs || left == Exec(fs, c).fs
  {
    SiblingsUnrelated(v);
    if was.Some? {
      assert Parent(v.backup) == v.parent;
      var after := Delete(fs, v.active);
      GetDelete(fs, v.active);
      GetPut(after, v.backup, was.value);
      GetPutElsewhere(after, v.backup, v.active, was.value);
      SparedByExec(fs, Mv(v.active, v.backup), v.staged);
      ParentIsDir(Put(after, v.backup, was.value), v.backup);
    }
  }

  lemma PutInPlaceStep(fs: Node, v: Volume, was: Option<Node>, next: Node)
    requires Sound(v) && Aside(fs, v, was, next) && IsDir(fs, v.parent)
    ensures var c := Mv(v.staged, v.active);
            && Exec(fs, c).Done? && Swapped(Exec(fs, c).fs, v, was, next)
            && forall left | MayLeave(fs, c, left) :: left == fs || left == Exec(fs, c).fs
  {
    SiblingsUnrelated(v);
    var after := Delete(fs, v.staged);
    assert v.staged != [];
    GetDelete(fs, v.staged);
    GetPut(after, v.active, next);
    GetPutElsewhere(after, v.active, v.staged, next);
    SparedByExec(fs, Mv(v.staged, v.active), v.backup);
  }

  // ----- one volume ------------------------------------------------------------------------------------------------

  lemma LeavesFirst(fs: Node, c: Command, rest: seq<Command>, left: Node)
    requires Leaves(fs, [c] + rest, left)
    ensures MayLeave(fs, c, left) || (Exec(fs, c).Done? && Leaves(Exec(fs, c).fs, rest, left))
  {
    assert ([c] + rest)[1..] == rest;
  }

  lemma RunFirst(fs: Node, c: Command, rest: seq<Command>)
    ensures RunAll(fs, [c] + rest) == if Exec(fs, c).Done? then RunAll(Exec(fs, c).fs, rest) else Exec(fs, c)
  {
    assert ([c] + rest)[1..] == rest;
  }

  lemma LastTwoLeave(fs: Node, v: Volume, was: Option<Node>, next: Node, left: Node)
    requires Sound(v) && Cleared(fs, v, was, next)
    requires Leaves(fs, [WhenExists(v.active, Mv(v.active, v.backup))] + ([Mv(v.staged, v.active)] + []), left)
    ensures InPhase(left, v, was, next)
  {
    var c := WhenExists(v.active, Mv(v.active, v.backup));
    SetAsideStep(fs, v, was, next);
    LeavesFirst(fs, c, [Mv(v.staged, v.active)] + [], left);
    if left != fs && left != Exec(fs, c).fs {
      PutInPlaceStep(Exec(fs, c).fs, v, was, next);
      LeavesFirst(Exec(fs, c).fs, Mv(v.staged, v.active), [], left);
    }
  }

  lemma LastTwoRun(fs: Node, v: Volume, was: Option<Node>, next: Node)
    requires Sound(v) && Cleared(fs, v, was, next)
    ensures var o := RunAll(fs, [WhenExists(v.active, Mv(v.active, v.backup))] + ([Mv(v.staged, v.active)] + []));
            o.Done? && Swapped(o.fs, v, was, next)
  {
    var c := WhenExists(v.active, Mv(v.active, v.backup));
    SetAsideStep(fs, v, was, next);
    RunFirst(fs, c, [Mv(v.staged, v.active)] + []);
    PutInPlaceStep(Exec(fs, c).fs, v, was, next);
    RunFirst(Exec(fs, c).fs, Mv(v.staged, v.active), []);
  }

  /** Wherever a volume's commands stop, its trees are in one of the three phases. */
  lemma VolumeLeaves(fs: Node, v: Volume, was: Option<Node>, next: Node, left: Node)
    requires Sound(v) && Waiting(fs, v, was, next) && Leaves(fs, VolumeCommands(v), left)
    ensures InPhase(left, v, was, next)
  {
    var last := [WhenExists(v.active, Mv(v.active, v.backup))] + ([Mv(v.staged, v.active)] + []);
    MkdirStep(fs, v, was, next);
    LeavesFirst(fs, MkdirP(v.parent), [RmRf(v.backup)] + last, left);
    if !MayLeave(fs, MkdirP(v.parent), left) {
      var made := Exec(fs, MkdirP(v.parent)).fs;
      RemoveStep(made, v, was, next);
      LeavesFirst(made, RmRf(v.backup), last, left);
      if !MayLeave(made, RmRf(v.backup), left) {
        LastTwoLeave(Exec(made, RmRf(v.backup)).fs, v, was, next, left);
      }
    }
  }

  /** A volume's commands succeed exactly when its directory can be made, and then swap its trees. */
  lemma VolumeRuns(fs: Node, v: Volume, was: Option<Node>, next: Node)
    requires Sound(v) && Waiting(fs, v, was, next)
    ensures var o := RunAll(fs, VolumeCommands(v));
            (o.Done? <==> CanMake(fs, v.parent)) && (o.Done? ==> Swapped(o.fs, v, was, next))
  {
    var last := [WhenExists(v.active, Mv(v.active, v.backup))] + ([Mv(v.staged, v.active)] + []);
    MkdirStep(fs, v, was, next);
    RunFirst(fs, MkdirP(v.parent), [RmRf(v.backup)] + last);
    if CanMake(fs, v.parent) {
      var made := Exec(fs, MkdirP(v.parent)).fs;
      RemoveStep(made, v, was, next);
      RunFirst(made, RmRf(v.backup), last);
      LastTwoRun(Exec(made, RmRf(v.backup)).fs, v, was, next);
    }
  }

  // ----- both volumes ------------------------------------------------------------------------------------------------

  predicate SparesVolume(script: seq<Command>, v: Volume) {
    AllSpare(script, v.staged) && AllSpare(script, v.active) && AllSpare(script, v.backup)
  }

  /** A script that spares a volume leaves it in its phase, wherever it stops. */
  lemma SparedVolume(fs: Node, script: seq<Command>, v: Volume, left: Node)
    requires SparesVolume(script, v) && Leaves(fs, script, left)
    ensures Get(left, v.staged) == Get(fs, v.staged) && Get(left, v.active) == Get(fs, v.active)
    ensures Get(left, v.backup) == Get(fs, v.backup)
  {
    ScriptSpares(fs, script, v.staged, left);
    ScriptSpares(fs, script, v.active, left);
    ScriptSpares(fs, script, v.backup, left);
  }

  lemma OneSparesTheOther(v: Volume, w: Volume)
    requires Sound(v) && Apart(v, w)
    ensures SparesVolume(VolumeCommands(v), w)
  {
    CommandsSpare(v, w.staged);
    CommandsSpare(v, w.active);
    CommandsSpare(v, w.backup);
  }

  lemma ApartBothWays(v: Volume, w: Volume)
    requires Apart(v, w)
    ensures Apart(w, v)
  {
  }

  /** Wherever the script is stopped, by a crash or a failing command: each old tree is at exactly one of
      active and backup, each new tree at exactly one of staged and active, no active tree was replaced
      before its predecessor was safe, and the second volume is untouched until the first is swapped. */
  lemma CrashSafe(fs: Node, a: Volume, t: Volume, oldA: Option<Node>, newA: Node, oldT: Option<Node>, newT: Node,
                  tail: seq<Command>, left: Node)
    requires Sound(a) && Sound(t) && Apart(a, t) && SparesVolume(tail, a) && SparesVolume(tail, t)
    requires Waiting(fs, a, oldA, newA) && Waiting(fs, t, oldT, newT)
    requires Leaves(fs, SwapCommands(a, t) + tail, left)
    ensures InPhase(left, a, oldA, newA) && InPhase(left, t, oldT, newT)
    ensures Swapped(left, a, oldA, newA) || Waiting(left, t, oldT, newT)
  {
    OneSparesTheOther(a, t);
    ApartBothWays(a, t);
    OneSparesTheOther(t, a);
    LeavesJoins(fs, SwapCommands(a, t), tail, left);
    if Leaves(fs, SwapCommands(a, t), left) {
      SwapLeaves(fs, a, t, oldA, newA, oldT, newT, left);
    } else {
      SwapRuns(fs, a, t, oldA, newA, oldT, newT);
      var mid := RunAll(fs, SwapCommands(a, t)).fs;
      SparedVolume(mid, tail, a, left);
      SparedVolume(mid, tail, t, left);
    }
  }

  lemma SwapLeaves(fs: Node, a: Volume, t: Volume, oldA: Option<Node>, newA: Node, oldT: Option<Node>, newT: Node,
                   left: Node)
    requires Sound(a) && Sound(t) && SparesVolume(VolumeCommands(a), t) && SparesVolume(VolumeCommands(t), a)
    requires Waiting(fs, a, oldA, newA) && Waiting(fs, t, oldT, newT) && Leaves(fs, SwapCommands(a, t), left)
    ensures InPhase(left, a, oldA, newA) && InPhase(left, t, oldT, newT)
    ensures Swapped(left, a, oldA, newA) || Waiting(left, t, oldT, newT)
  {
    LeavesJoins(fs, VolumeCommands(a), VolumeCommands(t), left);
    if Leaves(fs, VolumeCommands(a), left) {
      VolumeLeaves(fs, a, oldA, newA, left);
      SparedVolume(fs, VolumeCommands(a), t, left);
    } else {
      VolumeRuns(fs, a, oldA, newA);
      RunAllLeaves(fs, VolumeCommands(a));
      var mid := RunAll(fs, VolumeCommands(a)).fs;
      SparedVolume(fs, VolumeCommands(a), t, mid);
      VolumeLeaves(mid, t, oldT, newT, left);
      SparedVolume(mid, VolumeCommands(t), a, left);
    }
  }

  /** A run of both volumes' commands that goes through has swapped both. */
  lemma SwapRuns(fs: Node, a: Volume, t: Volume, oldA: Option<Node>, newA: Node, oldT: Option<Node>, newT: Node)
    requires Sound(a) && Sound(t) && SparesVolume(VolumeCommands(a), t) && SparesVolume(VolumeCommands(t), a)
    requires Waiting(fs, a, oldA, newA) && Waiting(fs, t, oldT, newT)
    ensures var o := RunAll(fs, SwapCommands(a, t));
            o.Done? ==> Swapped(o.fs, a, oldA, newA) && Swapped(o.fs, t, oldT, newT)
  {
    RunAllJoins(fs, VolumeCommands(a), VolumeCommands(t));
    VolumeRuns(fs, a, oldA, newA);
    RunAllLeaves(fs, VolumeCommands(a));
    var mid := RunAll(fs, VolumeCommands(a)).fs;
    SparedVolume(fs, VolumeCommands(a), t, mid);
    VolumeRuns(mid, t, oldT, newT);
    RunAllLeaves(mid, VolumeCommands(t));
    SparedVolume(mid, VolumeCommands(t), a, RunAll(mid, VolumeCommands(t)).fs);
  }

  /** A full run leaves both new trees active and both old ones as backups. */
  lemma FullRun(fs: Node, a: Volume, t: Volume, oldA: Option<Node>, newA: Node, oldT: Option<Node>, newT: Node,
                tail: seq<Command>)
    requires Sound(a) && Sound(t) && Apart(a, t) && SparesVolume(tail, a) && SparesVolume(tail, t)
    requires Waiting(fs, a, oldA, newA) && Waiting(fs, t, oldT, newT)
    ensures var o := RunAll(fs, SwapCommands(a, t) + tail);
            o.Done? ==> Swapped(o.fs, a, oldA, newA) && Swapped(o.fs, t, oldT, newT)
  {
    OneSparesTheOther(a, t);
    ApartBothWays(a, t);
    OneSparesTheOther(t, a);
    RunAllJoins(fs, SwapCommands(a, t), tail);
    SwapRuns(fs, a, t, oldA, newA, oldT, newT);
    var mid := RunAll(fs, SwapCommands(a, t)).fs;
    RunAllLeaves(mid, tail);
    SparedVolume(mid, tail, a, RunAll(mid, tail).fs);
    SparedVolume(mid, tail, t, RunAll(mid, tail).fs);
  }

  // ----- when the script goes through ------------------------------------------------------------------------------

  /** Making directories asks that no file stands on the way. */
  lemma {:induction false} CanMakeMeans(fs: Node, p: Path)
    ensures CanMake(fs, p) <==> forall k | 0 <= k <= |p| :: !IsFile(fs, p[..k])
    decreases |p|
  {
    if p == [] {
      assert p[..0] == [];
    } else if fs.Dir? {
      CanMakeMeans(Kid(fs, p[0]), p[1..]);
      forall k | 0 < k <= |p| ensures p[..k][1..] == p[1..][..k - 1] { }
      if CanMake(fs, p) {
        forall k | 0 <= k <= |p| ensures !IsFile(fs, p[..k]) {
          if k > 0 { assert !IsFile(Kid(fs, p[0]), p[1..][..k - 1]); }
        }
      } else {
        var k :| 0 <= k <= |p[1..]| && IsFile(Kid(fs, p[0]), p[1..][..k]);
        assert p[..k + 1][1..] == p[1..][..k];
        assert IsFile(fs, p[..k + 1]);
      }
    } else {
      assert IsFile(fs, p[..0]);
    }
  }

  /** Where a place is not at or below a written one, a change elsewhere puts no file there. */
  lemma {:induction false} PutNoFile(fs: Node, p: Path, n: Node, r: Path)
    requires !(p <= r) && !IsFile(fs, r)
    ensures !IsFile(Put(fs, p, n), r)
    decreases |p|
  {
    if r != [] && p[0] == r[0] {
      assert p == [p[0]] + p[1..] && r == [r[0]] + r[1..];
      if p[0] !in Kids(fs) { EmptyHasNothing(r[1..]); }
      PutNoFile(Kid(fs, p[0]), p[1..], n, r[1..]);
    }
  }

  lemma {:induction false} DeleteNoFile(fs: Node, p: Path, r: Path)
    requires !IsFile(fs, r)
    ensures !IsFile(Delete(fs, p), r)
    decreases |p|
  {
    if p != [] && p[0] in Kids(fs) && |p| > 1 && r != [] && r[0] == p[0] {
      DeleteNoFile(Kids(fs)[p[0]], p[1..], r[1..]);
    }
  }

  lemma {:induction false} MakeNoFile(fs: Node, p: Path, r: Path)
    requires !IsFile(fs, r)
    ensures !IsFile(MakeDirs(fs, p), r)
    decreases |p|
  {
    if p != [] && r != [] && p[0] == r[0] {
      if p[0] !in Kids(fs) { EmptyHasNothing(r[1..]); }
      MakeNoFile(Kid(fs, p[0]), p[1..], r[1..]);
    }
  }

  lemma MvNoFile(fs: Node, src: Path, dst: Path, r: Path)
    requires !(dst <= r) && !IsFile(fs, r)
    ensures !IsFile(Exec(fs, Mv(src, dst)).fs, r)
  {
    if src != [] && CanMove(fs, src, MvTarget(fs, src, dst)) {
      DeleteNoFile(fs, src, r);
      assert dst <= MvTarget(fs, src, dst);
      PutNoFile(Delete(fs, src), MvTarget(fs, src, dst), Get(fs, src).value, r);
    }
  }

  lemma VolumeNoFile(fs: Node, v: Volume, r: Path)
    requires !(v.active <= r) && !(v.backup <= r) && !IsFile(fs, r)
    ensures !IsFile(RunAll(fs, VolumeCommands(v)).fs, r)
  {
    var c3 := WhenExists(v.active, Mv(v.active, v.backup));
    var c4 := Mv(v.staged, v.active);
    RunFirst(fs, MkdirP(v.parent), [RmRf(v.backup)] + ([c3] + ([c4] + [])));
    MakeNoFile(fs, v.parent, r);
    var f1 := Exec(fs, MkdirP(v.parent)).fs;
    RunFirst(f1, RmRf(v.backup), [c3] + ([c4] + []));
    DeleteNoFile(f1, v.backup, r);
    var f2 := Exec(f1, RmRf(v.backup)).fs;
    RunFirst(f2, c3, [c4] + []);
    MvNoFile(f2, v.active, v.backup, r);
    var f3 := Exec(f2, c3).fs;
    RunFirst(f3, c4, []);
    MvNoFile(f3, v.staged, v.active, r);
  }

  /** With both directories makeable and both trees staged, the swap goes through. */
  lemma SwapCompletes(fs: Node, a: Volume, t: Volume, oldA: Option<Node>, newA: Node, oldT: Option<Node>, newT: Node)
    requires Sound(a) && Sound(t) && Apart(a, t) && CanMake(fs, a.parent) && CanMake(fs, t.parent)
    requires Waiting(fs, a, oldA, newA) && Waiting(fs, t, oldT, newT)
    ensures RunAll(fs, SwapCommands(a, t)).Done?
  {
    RunAllJoins(fs, VolumeCommands(a), VolumeCommands(t));
    VolumeRuns(fs, a, oldA, newA);
    RunAllLeaves(fs, VolumeCommands(a));
    var mid := RunAll(fs, VolumeCommands(a)).fs;
    OneSparesTheOther(a, t);
    SparedVolume(fs, VolumeCommands(a), t, mid);
    VolumeRuns(mid, t, oldT, newT);
    CanMakeMeans(fs, t.parent);
    CanMakeMeans(mid, t.parent);
    forall k | 0 <= k <= |t.parent| ensures !IsFile(mid, t.parent[..k]) {
      assert t.parent[..k] <= t.active;
      VolumeNoFile(fs, a, t.parent[..k]);
    }
  }

  // ----- a path that ends in a slash -------------------------------------------------------------------------------

  predicate EndsPlainly(active: string) { !Empty(LastPiece(active)) }

  lemma PlainBackupIsBeside(staging: Path, name: string, active: string)
    requires EndsPlainly(active)
    ensures BackupBeside(VolumeAt(staging, name, active))
  {
    PreviousStands(active);
    DirNameStands(active);
  }

  lemma PlainVolumeIsSound(staging: Path, name: string, active: string)
    requires EndsPlainly(active)
    requires Unrelated(staging + [name], Parse(active)) && Unrelated(staging + [name], Parse(active + ".previous"))
    ensures Sound(VolumeAt(staging, name, active))
  {
    PlainBackupIsBeside(staging, name, active);
  }

  lemma {:induction false} MakeDirsIdle(fs: Node, p: Path)
    requires IsDir(fs, p)
    ensures MakeDirs(fs, p) == fs
    decreases |p|
  {
    if p != [] {
      MakeDirsIdle(Kid(fs, p[0]), p[1..]);
      assert Kids(fs)[p[0] := Kids(fs)[p[0]]] == Kids(fs);
    }
  }

  lemma {:induction false} DeleteBelow(fs: Node, p: Path, r: Path)
    requires Exists(fs, p) && r != []
    ensures Get(Delete(fs, p + r), p) == Some(Delete(Get(fs, p).value, r))
    decreases |p|
  {
    if p == [] {
      assert p + r == r;
    } else {
      assert (p + r)[1..] == p[1..] + r;
      DeleteBelow(Kids(fs)[p[0]], p[1..], r);
    }
  }

  /** With the backup inside the active tree, `mv` refuses; the old tree stays active, the new one staged. */
  lemma NestedBackupFails(fs: Node, v: Volume, was: Node, next: Node, x: string)
    requires v.active != [] && v.backup == v.active + [x] && (v.parent == Parent(v.active) || v.parent == v.active)
    requires Unrelated(v.staged, v.active) && was.Dir? && Waiting(fs, v, Some(was), next)
    ensures var o := RunAll(fs, VolumeCommands(v));
            o.Failed? && (CanMake(fs, v.parent) ==> Get(o.fs, v.active) == Some(Delete(was, [x])))
            && Get(o.fs, v.staged) == Some(next)
  {
    var c3 := WhenExists(v.active, Mv(v.active, v.backup));
    var last := [c3] + ([Mv(v.staged, v.active)] + []);
    RunFirst(fs, MkdirP(v.parent), [RmRf(v.backup)] + last);
    if CanMake(fs, v.parent) {
      if v.parent == v.active { MakeDirsIdle(fs, v.active); } else { GetMakeDirs(fs, v.parent, v.active); }
      StagedNotAbove(v);
      GetMakeDirs(fs, v.parent, v.staged);
      var f1 := Exec(fs, MkdirP(v.parent)).fs;
      RunFirst(f1, RmRf(v.backup), last);
      DeleteBelow(f1, v.active, [x]);
      GetDelete(f1, v.backup);
      BelowUnrelated(v.active, v.staged, x);
      GetDeleteElsewhere(f1, v.backup, v.staged);
      var f2 := Exec(f1, RmRf(v.backup)).fs;
      RunFirst(f2, c3, [Mv(v.staged, v.active)] + []);
    }
  }

  lemma StagedNotAbove(v: Volume)
    requires v.active != [] && (v.parent == Parent(v.active) || v.parent == v.active) && Unrelated(v.staged, v.active)
    ensures !(v.staged <= v.parent)
  {
    assert v.parent <= v.active;
  }

  /** Over an active tree, a volume's commands go through exactly when its settings path does not end in
      a slash or in `/.`; the settings check does not ask for that. */
  lemma SwapsIffPlain(fs: Node, staging: Path, name: string, active: string, was: Node, next: Node)
    requires var v := VolumeAt(staging, name, active);
             && v.active != [] && Unrelated(v.staged, v.active) && Unrelated(v.staged, v.backup)
             && Waiting(fs, v, Some(was), next) && was.Dir? && CanMake(fs, v.parent)
    ensures RunAll(fs, VolumeCommands(VolumeAt(staging, name, active))).Done? <==> EndsPlainly(active)
  {
    var v := VolumeAt(staging, name, active);
    PreviousStands(active);
    DirNameStands(active);
    if EndsPlainly(active) {
      PlainVolumeIsSound(staging, name, active);
      VolumeRuns(fs, v, Some(was), next);
    } else {
      NestedBackupFails(fs, v, was, next, LastPiece(active) + ".previous");
    }
  }

  // ----- a volume inside the other ---------------------------------------------------------------------------------

  /** With the second active path below the first, which the settings check allows, the first swap moves
      the second volume's old tree away with its own: it is then at neither of its two places. */
  lemma InnerVolumeIsCarriedOff(fs: Node, a: Volume, inner: Path, oldA: Node, newA: Node)
    requires Sound(a) && a.active <= inner && Waiting(fs, a, Some(oldA), newA) && CanMake(fs, a.parent)
    ensures var end := RunAll(fs, VolumeCommands(a)).fs;
            var rest := inner[|a.active|..];
            Get(end, a.backup + rest) == Get(fs, inner) && Get(end, inner) == Get(newA, rest)
  {
    VolumeRuns(fs, a, Some(oldA), newA);
    var end := RunAll(fs, VolumeCommands(a)).fs;
    var rest := inner[|a.active|..];
    PrefixIsBelow(a.active, inner);
    GetBelow(fs, a.active, rest);
    GetBelow(end, a.active, rest);
    GetBelow(end, a.backup, rest);
  }

  // ----- a second stop ---------------------------------------------------------------------------------------------

  /** Some stop of the volume's commands leaves nothing active and no backup. */
  ghost predicate MayLoseBoth(fs: Node, v: Volume) {
    exists left :: Leaves(fs, VolumeCommands(v), left) && Get(left, v.active) == None && Get(left, v.backup) == None
  }

  /** The phases protect one run. A deployment started again first removes the backup, whatever it is the
      only copy of: some stop then leaves neither an active tree nor a backup if and only if there was no
      active tree to begin with, as after a stop between the two moves. */
  lemma SecondStopLosesTheOldTree(fs: Node, v: Volume, next: Node)
    requires Sound(v) && Get(fs, v.staged) == Some(next) && CanMake(fs, v.parent)
    ensures MayLoseBoth(fs, v) <==> !Exists(fs, v.active)
  {
    if Exists(fs, v.active) {
      forall left | Leaves(fs, VolumeCommands(v), left)
        ensures !(Get(left, v.active) == None && Get(left, v.backup) == None)
      {
        VolumeLeaves(fs, v, Get(fs, v.active), next, left);
      }
    } else {
      StopAfterRemoval(fs, v, next);
    }
  }

  lemma StopAfterRemoval(fs: Node, v: Volume, next: Node)
    requires Sound(v) && Waiting(fs, v, None, next) && CanMake(fs, v.parent)
    ensures MayLoseBoth(fs, v)
  {
    var rest := [WhenExists(v.active, Mv(v.active, v.backup))] + ([Mv(v.staged, v.active)] + []);
    MkdirStep(fs, v, None, next);
    var made := Exec(fs, MkdirP(v.parent)).fs;
    RemoveStep(made, v, None, next);
    var left := Exec(made, RmRf(v.backup)).fs;
    assert ([RmRf(v.backup)] + rest)[1..] == rest;
    assert Leaves(left, rest, left);
    assert Leaves(made, [RmRf(v.backup)] + rest, left);
    assert ([MkdirP(v.parent)] + ([RmRf(v.backup)] + rest))[1..] == [RmRf(v.backup)] + rest;
    assert Leaves(fs, VolumeCommands(v), left);
  }
}
