/** What a stop of the whole script, marker install included, may leave of the trees: the new ones but for
    the marker's own place always, and the old ones exactly when the marker stays away from their backups. */
module MarkerSafety {
  import opened Wrappers
  import opened RemoteFs
  import opened PathText
  import opened SwapVolumes
  import opened SwapOverlaps
  import opened MarkerDelivery
  import opened MarkerPlaces

  // ----- what the commands spare -----------------------------------------------------------------------------------

  lemma MarkerSparesPlace(source: Path, t: Path, same: bool, q: Path)
    requires t != [] && (same || (Unrelated(q, t) && Unrelated(q, Previous(t))))
    ensures AllSpare(InstallMarker(source, t, same), q)
  {
    if !same {
      NotAboveParent(t, q);
      SpareFirst(Chmod(t), [], q);
      SpareFirst(Cp(source, t), [Chmod(t)] + [], q);
      SpareFirst(WhenExists(t, Mv(t, Previous(t))), [Cp(source, t)] + ([Chmod(t)] + []), q);
      SpareFirst(RmRf(Previous(t)),
                 [WhenExists(t, Mv(t, Previous(t)))] + ([Cp(source, t)] + ([Chmod(t)] + [])), q);
    }
  }

  lemma SpareFirst(c: Command, rest: seq<Command>, q: Path)
    requires Spares(c, q) && AllSpare(rest, q)
    ensures AllSpare([c] + rest, q)
  {
  }

  /** No script was uploaded, so the commands that install it leave nothing, wherever they stop. */
  lemma ScriptStopsChangeNothing(mid: Node, staging: Path, left: Node)
    requires Get(mid, staging + ["scripts", "pbx-recording-retention"]) == None
    requires Leaves(mid, InstallScript(staging), left)
    ensures left == mid
  {
    var source := staging + ["scripts", "pbx-recording-retention"];
    var c1 := WhenFile(source, MkdirP(Parent(SCRIPT_TARGET)));
    var c2 := WhenFile(source, Cp(source, SCRIPT_TARGET));
    var c3 := WhenFile(SCRIPT_TARGET, Chmod(SCRIPT_TARGET));
    assert InstallScript(staging) == [c1] + ([c2] + ([c3] + []));
    IdleStop(mid, c1, [c2] + ([c3] + []), left);
    if left != mid {
      IdleStop(mid, c2, [c3] + [], left);
      if left != mid { IdleStop(mid, c3, [], left); }
    }
  }

  /** A test that fails, or a mode that changes, leaves the tree as it is. */
  lemma IdleStop(mid: Node, c: Command, rest: seq<Command>, left: Node)
    requires c.WhenFile? && (IsFile(mid, c.test) ==> c.body == Chmod(c.test)) && Leaves(mid, [c] + rest, left)
    ensures left == mid || Leaves(mid, rest, left)
  {
    LeavesFirst(mid, c, rest, left);
    if IsFile(mid, c.test) { assert MayLeave(mid, c, left) ==> left == mid || MayLeave(mid, c.body, left); }
  }

  /** The script stops in the swap, or after it in the marker's commands. */
  lemma ScriptStops(fs: Node, s: Settings, marker: PosixPath, bundle: Path, tree: Node, left: Node)
    requires Layout(s) && Staged(fs, s, tree) && marker.parts != [] && Leaves(fs, Script(s, marker, bundle), left)
    ensures var o := RunAll(fs, SwapCommands(s.asterisk, s.tftp));
            || Leaves(fs, SwapCommands(s.asterisk, s.tftp), left)
            || (o.Done? && (left == o.fs || (marker.absolute
                  && Leaves(o.fs, InstallMarker(Source(s, bundle), marker.parts, Coincide(s, marker, bundle)), left))))
  {
    var swap := SwapCommands(s.asterisk, s.tftp);
    LeavesJoins(fs, swap, Installs(s, marker, bundle), left);
    if !Leaves(fs, swap, left) {
      var mid := RunAll(fs, swap).fs;
      var last := if marker.absolute then InstallMarker(Source(s, bundle), marker.parts, Coincide(s, marker, bundle))
                  else [];
      NoScriptsAfterSwap(fs, s, tree);
      ScriptsAreNotInstalled(mid, s.staging.parts, EMPTY_DIR);
      LeavesJoins(mid, InstallScript(s.staging.parts), last, left);
      if Leaves(mid, InstallScript(s.staging.parts), left) { ScriptStopsChangeNothing(mid, s.staging.parts, left); }
    }
  }

  // ----- what any stop keeps -----------------------------------------------------------------------------------------

  /** The old tree, if there was one, is whole at one of its two places. */
  predicate OldKept(left: Node, v: Volume, was: Option<Node>) {
    was.Some? ==> Get(left, v.active) == was || Get(left, v.backup) == was
  }

  /** The new tree is whole at its staged place, or is active and as it was but at, above or below the
      target and the target's backup. */
  ghost predicate NewKept(left: Node, v: Volume, next: Node, target: Path)
    requires target != []
  {
    || Get(left, v.staged) == Some(next)
    || forall q :: Unrelated(v.active + q, target) && Unrelated(v.active + q, Previous(target)) ==>
                     Get(left, v.active + q) == Get(next, q)
  }

  predicate AwayFrom(p: Path, target: Path)
    requires target != []
  {
    Unrelated(p, target) && Unrelated(p, Previous(target))
  }

  lemma PhaseKeeps(left: Node, v: Volume, was: Option<Node>, next: Node, target: Path)
    requires InPhase(left, v, was, next) && target != []
    ensures OldKept(left, v, was) && NewKept(left, v, next, target)
  {
    if Swapped(left, v, was, next) {
      forall q ensures Get(left, v.active + q) == Get(next, q) { GetBelow(left, v.active, q); }
    }
  }

  lemma InstallStopKeeps(mid: Node, v: Volume, was: Option<Node>, next: Node, source: Path, t: Path, same: bool,
                         left: Node)
    requires Swapped(mid, v, was, next) && t != [] && Leaves(mid, InstallMarker(source, t, same), left)
    ensures NewKept(left, v, next, t)
    ensures same || AwayFrom(v.backup, t) ==> OldKept(left, v, was)
  {
    forall q | Unrelated(v.active + q, t) && Unrelated(v.active + q, Previous(t))
      ensures Get(left, v.active + q) == Get(next, q)
    {
      MarkerSparesPlace(source, t, same, v.active + q);
      ScriptSpares(mid, InstallMarker(source, t, same), v.active + q, left);
      GetBelow(mid, v.active, q);
    }
    if same || AwayFrom(v.backup, t) {
      MarkerSparesPlace(source, t, same, v.backup);
      ScriptSpares(mid, InstallMarker(source, t, same), v.backup, left);
    }
  }

  /** The target and its backup stand away from both volumes' backups. */
  predicate AwayFromBackups(s: Settings, target: Path)
    requires target != []
  {
    AwayFrom(s.asterisk.backup, target) && AwayFrom(s.tftp.backup, target)
  }

  /** Installing the marker cannot touch an old tree that the swap has set aside. */
  predicate BackupsAreSafe(s: Settings, marker: PosixPath, bundle: Path)
    requires marker.parts != []
  {
    !marker.absolute || Coincide(s, marker, bundle) || AwayFromBackups(s, marker.parts)
  }

  /** The marker is installed away from all the volume's places. */
  predicate InstallsElsewhere(s: Settings, marker: PosixPath, bundle: Path, v: Volume)
    requires marker.parts != []
  {
    !marker.absolute || Coincide(s, marker, bundle) || (Clear(v, marker.parts) && Clear(v, Previous(marker.parts)))
  }

  /** The phase of a volume whose places the marker's commands do not touch. */
  lemma InstallStopLeavesPhase(mid: Node, v: Volume, was: Option<Node>, next: Node, source: Path, t: Path, same: bool,
                               left: Node)
    requires Swapped(mid, v, was, next) && t != [] && Leaves(mid, InstallMarker(source, t, same), left)
    requires same || (Clear(v, t) && Clear(v, Previous(t)))
    ensures Swapped(left, v, was, next)
  {
    MarkerSparesPlace(source, t, same, v.staged);
    MarkerSparesPlace(source, t, same, v.active);
    MarkerSparesPlace(source, t, same, v.backup);
    SparedVolume(mid, InstallMarker(source, t, same), v, left);
  }

  lemma SwapStopPhases(fs: Node, s: Settings, tree: Node, left: Node)
    requires Layout(s) && Staged(fs, s, tree)
    ensures var a, t := s.asterisk, s.tftp; var o := RunAll(fs, SwapCommands(a, t));
            && (Leaves(fs, SwapCommands(a, t), left) ==>
                  && InPhase(left, a, Get(fs, a.active), Kids(tree)["asterisk"])
                  && InPhase(left, t, Get(fs, t.active), Kids(tree)["tftp"])
                  && (Swapped(left, a, Get(fs, a.active), Kids(tree)["asterisk"])
                      || Waiting(left, t, Get(fs, t.active), Kids(tree)["tftp"])))
            && (o.Done? ==>
                  && Swapped(o.fs, a, Get(fs, a.active), Kids(tree)["asterisk"])
                  && Swapped(o.fs, t, Get(fs, t.active), Kids(tree)["tftp"]))
  {
    var a, t := s.asterisk, s.tftp;
    StagedTrees(fs, s, tree);
    OneSparesTheOther(a, t);
    ApartBothWays(a, t);
    OneSparesTheOther(t, a);
    SwapRuns(fs, a, t, Get(fs, a.active), Kids(tree)["asterisk"], Get(fs, t.active), Kids(tree)["tftp"]);
    if Leaves(fs, SwapCommands(a, t), left) {
      SwapLeaves(fs, a, t, Get(fs, a.active), Kids(tree)["asterisk"], Get(fs, t.active), Kids(tree)["tftp"], left);
    }
  }

  /** Wherever a deployment's script stops, whatever its marker: each new tree is whole but at the marker's
      own place; each old tree is whole too if the marker is away from the backups; and a volume whose places
      the marker does not touch is in one of the three phases of the swap. */
  lemma DeploymentIsCrashSafe(fs: Node, s: Settings, marker: PosixPath, bundle: Path, tree: Node, left: Node)
    requires Layout(s) && Staged(fs, s, tree) && marker.parts != [] && Leaves(fs, Script(s, marker, bundle), left)
    ensures var a, t := s.asterisk, s.tftp; var oldA, oldT := Get(fs, a.active), Get(fs, t.active);
            var newA, newT := Kids(tree)["asterisk"], Kids(tree)["tftp"];
            && NewKept(left, a, newA, marker.parts) && NewKept(left, t, newT, marker.parts)
            && (BackupsAreSafe(s, marker, bundle) ==> OldKept(left, a, oldA) && OldKept(left, t, oldT))
            && (InstallsElsewhere(s, marker, bundle, a) ==> InPhase(left, a, oldA, newA))
            && (InstallsElsewhere(s, marker, bundle, t) ==> InPhase(left, t, oldT, newT))
            && (InstallsElsewhere(s, marker, bundle, a) ==>
                  Swapped(left, a, oldA, newA) || Waiting(left, t, oldT, newT))
  {
    var a, t := s.asterisk, s.tftp;
    var swap := SwapCommands(a, t);
    SwapStopPhases(fs, s, tree, left);
    ScriptStops(fs, s, marker, bundle, tree, left);
    if Leaves(fs, swap, left) || left == RunAll(fs, swap).fs {
      PhaseKeeps(left, a, Get(fs, a.active), Kids(tree)["asterisk"], marker.parts);
      PhaseKeeps(left, t, Get(fs, t.active), Kids(tree)["tftp"], marker.parts);
    } else {
      InstallStop(RunAll(fs, swap).fs, s, a, Get(fs, a.active), Kids(tree)["asterisk"], marker, bundle, left);
      InstallStop(RunAll(fs, swap).fs, s, t, Get(fs, t.active), Kids(tree)["tftp"], marker, bundle, left);
    }
  }

  lemma InstallStop(mid: Node, s: Settings, v: Volume, was: Option<Node>, next: Node, marker: PosixPath, bundle: Path,
                    left: Node)
    requires Swapped(mid, v, was, next) && marker.parts != [] && marker.absolute
    requires Leaves(mid, InstallMarker(Source(s, bundle), marker.parts, Coincide(s, marker, bundle)), left)
    ensures NewKept(left, v, next, marker.parts)
    ensures Coincide(s, marker, bundle) || AwayFrom(v.backup, marker.parts) ==> OldKept(left, v, was)
    ensures InstallsElsewhere(s, marker, bundle, v) ==> Swapped(left, v, was, next)
  {
    var same := Coincide(s, marker, bundle);
    InstallStopKeeps(mid, v, was, next, Source(s, bundle), marker.parts, same, left);
    if InstallsElsewhere(s, marker, bundle, v) {
      InstallStopLeavesPhase(mid, v, was, next, Source(s, bundle), marker.parts, same, left);
    }
  }

  // ----- when an old tree may be lost ------------------------------------------------------------------------------

  predicate OldTreesKept(fs: Node, s: Settings, left: Node) {
    OldKept(left, s.asterisk, Get(fs, s.asterisk.active)) && OldKept(left, s.tftp, Get(fs, s.tftp.active))
  }

  /** From every file system with this bundle staged, wherever the script stops. */
  ghost predicate KeepsOldTrees(s: Settings, marker: PosixPath, bundle: Path, tree: Node)
    requires marker.parts != []
  {
    forall fs, left | Staged(fs, s, tree) && Leaves(fs, Script(s, marker, bundle), left) :: OldTreesKept(fs, s, left)
  }

  /** The installs stop here: the run of the swap goes on into the marker's commands. */
  lemma {:induction false} LeavesLater(fs: Node, a: seq<Command>, b: seq<Command>, left: Node)
    requires RunAll(fs, a).Done? && Leaves(RunAll(fs, a).fs, b, left)
    ensures Leaves(fs, a + b, left)
    decreases |a|
  {
    if a == [] {
      assert a + b == b;
    } else {
      assert (a + b)[1..] == a[1..] + b;
      LeavesLater(Exec(fs, a[0]).fs, a[1..], b, left);
    }
  }

  lemma InstallStopIsAStop(fs: Node, s: Settings, marker: PosixPath, bundle: Path, tree: Node, left: Node)
    requires Layout(s) && Staged(fs, s, tree) && marker.parts != [] && marker.absolute
    requires RunAll(fs, SwapCommands(s.asterisk, s.tftp)).Done?
    requires var mid := RunAll(fs, SwapCommands(s.asterisk, s.tftp)).fs;
             Leaves(mid, InstallMarker(Source(s, bundle), marker.parts, Coincide(s, marker, bundle)), left)
    ensures Leaves(fs, Script(s, marker, bundle), left)
  {
    var mid := RunAll(fs, SwapCommands(s.asterisk, s.tftp)).fs;
    NoScriptsAfterSwap(fs, s, tree);
    ScriptsAreNotInstalled(mid, s.staging.parts, EMPTY_DIR);
    LeavesLater(mid, InstallScript(s.staging.parts),
                InstallMarker(Source(s, bundle), marker.parts, Coincide(s, marker, bundle)), left);
    LeavesLater(fs, SwapCommands(s.asterisk, s.tftp), Installs(s, marker, bundle), left);
  }

  lemma StopsHere(fs: Node, script: seq<Command>)
    ensures Leaves(fs, script, fs)
  {
  }

  lemma StopsLater(fs: Node, c: Command, rest: seq<Command>, left: Node)
    requires Exec(fs, c).Done? && Leaves(Exec(fs, c).fs, rest, left)
    ensures Leaves(fs, [c] + rest, left)
  {
    assert ([c] + rest)[1..] == rest;
  }

  /** After the removal of the target's old backup. */
  function Removed(mid: Node, t: Path): Node
    requires t != []
  {
    Delete(MakeDirs(mid, Parent(t)), Previous(t))
  }

  lemma StopsAfterRemoval(mid: Node, source: Path, t: Path)
    requires t != [] && CanMake(mid, Parent(t))
    ensures Leaves(mid, InstallMarker(source, t, false), Removed(mid, t))
  {
    var last := [WhenExists(t, Mv(t, Previous(t)))] + ([Cp(source, t)] + ([Chmod(t)] + []));
    StopsHere(Removed(mid, t), last);
    StopsLater(MakeDirs(mid, Parent(t)), RmRf(Previous(t)), last, Removed(mid, t));
    StopsLater(mid, MkdirP(Parent(t)), [RmRf(Previous(t))] + last, Removed(mid, t));
  }

  /** After what stood at the target has become its backup. */
  lemma StopsAfterAside(mid: Node, source: Path, t: Path) returns (clear: Node)
    requires t != [] && CanMake(mid, Parent(t))
    ensures Leaves(mid, InstallMarker(source, t, false), clear)
    ensures clear == Exec(Removed(mid, t), WhenExists(t, Mv(t, Previous(t)))).fs && Get(clear, t) == None
  {
    var aside := WhenExists(t, Mv(t, Previous(t)));
    var last := [Cp(source, t)] + ([Chmod(t)] + []);
    var made, gone := MakeDirs(mid, Parent(t)), Removed(mid, t);
    MadeDirIsThere(mid, Parent(t));
    GetDelete(made, Previous(t));
    DeleteKeepsDir(made, Previous(t), Parent(t));
    clear := TargetSetAside(gone, t, t);
    StopsHere(clear, last);
    StopsLater(gone, aside, last, clear);
    StopsLater(made, RmRf(Previous(t)), [aside] + last, clear);
    StopsLater(mid, MkdirP(Parent(t)), [RmRf(Previous(t))] + ([aside] + last), clear);
  }

  /** The old tree neither active nor backup: at most the new one is active. */
  predicate Lost(left: Node, v: Volume, was: Node) {
    Get(left, v.active) != Some(was) && Get(left, v.backup) != Some(was)
  }

  lemma RemovalLoses(mid: Node, v: Volume, was: Node, next: Node, t: Path)
    requires Sound(v) && Swapped(mid, v, Some(was), next) && was != next && t != []
    requires Previous(t) <= v.backup || (v.backup <= Previous(t) && Exists(was, Previous(t)[|v.backup|..]))
    ensures Lost(Removed(mid, t), v, was)
  {
    var p := Previous(t);
    var left := Removed(mid, t);
    GetDelete(MakeDirs(mid, Parent(t)), p);
    MissingBelow(left, p, v.active);
    MissingBelow(left, p, v.backup);
    if v.backup <= p { HeldBelow(left, v.backup, p); }
    if !(p <= v.active) { ActiveStays(mid, v, t); }
  }

  lemma ActiveStays(mid: Node, v: Volume, t: Path)
    requires Sound(v) && t != [] && !Unrelated(v.backup, Previous(t)) && !(Previous(t) <= v.active)
    ensures Get(Removed(mid, t), v.active) == Get(mid, v.active)
  {
    var p := Previous(t);
    SiblingsUnrelated(v);
    if v.active <= p { StaysUnrelated(v.active, v.backup, p); }
    assert Parent(t) <= p;
    GetMakeDirs(mid, Parent(t), v.active);
    GetDeleteElsewhere(MakeDirs(mid, Parent(t)), p, v.active);
  }

  lemma AsideLoses(mid: Node, clear: Node, v: Volume, was: Node, next: Node, t: Path)
    requires Sound(v) && Swapped(mid, v, Some(was), next) && was != next && t != [] && t <= v.backup
    requires clear == Exec(Removed(mid, t), WhenExists(t, Mv(t, Previous(t)))).fs && Get(clear, t) == None
    ensures Lost(clear, v, was)
  {
    MissingBelow(clear, t, v.backup);
    if t == v.backup {
      BackupAsideKeepsActive(mid, v, t);
    } else {
      BelowSibling(t, v.backup, v.active);
      MissingBelow(clear, t, v.active);
    }
  }

  lemma BackupAsideKeepsActive(mid: Node, v: Volume, t: Path)
    requires Sound(v) && t == v.backup
    ensures Get(Exec(Removed(mid, t), WhenExists(t, Mv(t, Previous(t)))).fs, v.active) == Get(mid, v.active)
  {
    SiblingsUnrelated(v);
    var p := Previous(t);
    assert Last(p) == Last(v.active) + ".previous" + ".previous" && |Last(p)| > |Last(v.active)|;
    assert |p| == |v.active| && p[|p| - 1] != v.active[|p| - 1];
    assert Parent(t) == Parent(v.active);
    GetMakeDirs(mid, Parent(t), v.active);
    GetDeleteElsewhere(MakeDirs(mid, Parent(t)), p, v.active);
    SparedByExec(Removed(mid, t), WhenExists(t, Mv(t, p)), v.active);
  }

  // ----- a file system for it --------------------------------------------------------------------------------------

  /** A tree of directories, with one at `r`, other than `next`. */
  function OldWith(r: Path, next: Node): Node {
    if MakeDirs(EMPTY_DIR, r) == next then MakeDirs(EMPTY_DIR, r + ["kept"]) else MakeDirs(EMPTY_DIR, r)
  }

  lemma OldWithHas(r: Path, next: Node)
    ensures OldWith(r, next) != next && Exists(OldWith(r, next), r) && NoFiles(OldWith(r, next))
  {
    EmptyHasNoFiles();
    MakeNoFiles(EMPTY_DIR, r);
    NoFilesCanMake(EMPTY_DIR, r);
    MadeDirIsThere(EMPTY_DIR, r);
    var more := r + ["kept"];
    MakeNoFiles(EMPTY_DIR, more);
    NoFilesCanMake(EMPTY_DIR, more);
    MadeDirIsThere(EMPTY_DIR, more);
    GetMakeDirs(EMPTY_DIR, r, more);
    EmptyHasNothing(more);
    GetBelow(MakeDirs(EMPTY_DIR, more), r, ["kept"]);
  }

  /** All files are in the staging directory. */
  ghost predicate FilesOnlyIn(fs: Node, staging: Path) {
    forall r :: IsFile(fs, r) ==> staging <= r
  }

  /** Both old trees in place, directories only, and the bundle staged. */
  lemma StagedOver(s: Settings, v: Volume, w: Volume, tree: Node, before: Node) returns (fs: Node)
    requires Unrelated(v.active, w.active)
    requires Unrelated(v.active, s.staging.parts) && Unrelated(w.active, s.staging.parts)
    requires NoFiles(before) && "asterisk" in Kids(tree) && "tftp" in Kids(tree)
    ensures Staged(fs, s, tree) && Get(fs, v.active) == Some(before) && Get(fs, w.active) == Some(EMPTY_DIR)
    ensures FilesOnlyIn(fs, s.staging.parts)
  {
    EmptyHasNoFiles();
    var one := Put(EMPTY_DIR, v.active, before);
    var two := Put(one, w.active, EMPTY_DIR);
    fs := Put(two, s.staging.parts, Uploaded(tree));
    PutNoFiles(EMPTY_DIR, v.active, before);
    PutNoFiles(one, w.active, EMPTY_DIR);
    GetPut(EMPTY_DIR, v.active, before);
    GetPut(one, w.active, EMPTY_DIR);
    GetPut(two, s.staging.parts, Uploaded(tree));
    GetPutElsewhere(one, w.active, v.active, EMPTY_DIR);
    GetPutElsewhere(two, s.staging.parts, v.active, Uploaded(tree));
    GetPutElsewhere(two, s.staging.parts, w.active, Uploaded(tree));
    forall r | IsFile(fs, r) ensures s.staging.parts <= r {
      if !(s.staging.parts <= r) { PutNoFile(two, s.staging.parts, Uploaded(tree), r); }
    }
  }

  lemma ClearOfFiles(fs: Node, staging: Path, p: Path)
    requires FilesOnlyIn(fs, staging) && !(staging <= p)
    ensures CanMake(fs, p)
  {
    CanMakeMeans(fs, p);
    forall k | 0 <= k <= |p| ensures !IsFile(fs, p[..k]) { assert staging <= p[..k] ==> staging <= p; }
  }

  /** One of the volumes, and the other. */
  predicate Pair(s: Settings, v: Volume, w: Volume) {
    (v == s.asterisk && w == s.tftp) || (v == s.tftp && w == s.asterisk)
  }

  function NewTree(s: Settings, tree: Node, v: Volume): Node
    requires "asterisk" in Kids(tree) && "tftp" in Kids(tree)
  {
    Kids(tree)[if v == s.asterisk then "asterisk" else "tftp"]
  }

  /** The target or its backup at, in or above the backup of `v`. */
  predicate Hits(v: Volume, t: Path)
    requires t != []
  {
    !AwayFrom(v.backup, t)
  }

  /** Such a target's directory is in none of the places that the swap fills from staging. */
  lemma HitIsElsewhere(v: Volume, t: Path, x: Path)
    requires t != [] && Hits(v, t) && Unrelated(x, v.backup)
    ensures !(x <= Parent(t))
  {
    if x <= Parent(t) { BelowIsAway(x, v.backup, t); }
  }

  lemma BelowIsAway(x: Path, p: Path, t: Path)
    requires t != [] && x <= Parent(t) && Unrelated(x, p)
    ensures AwayFrom(p, t)
  {
    StaysUnrelated(x, p, t);
    StaysUnrelated(x, p, Previous(t));
  }

  lemma StaysUnrelated(x: Path, p: Path, r: Path)
    requires x <= r && Unrelated(x, p)
    ensures Unrelated(p, r)
  {
  }

  lemma HitDirCanBeMade(fs: Node, s: Settings, v: Volume, w: Volume, tree: Node, t: Path)
    requires Layout(s) && Pair(s, v, w) && Staged(fs, s, tree) && t != [] && Hits(v, t)
    requires FilesOnlyIn(fs, s.staging.parts) && Get(fs, v.active).Some? && NoFiles(Get(fs, v.active).value)
    requires Get(fs, w.active) == Some(EMPTY_DIR) && RunAll(fs, SwapCommands(s.asterisk, s.tftp)).Done?
    ensures CanMake(RunAll(fs, SwapCommands(s.asterisk, s.tftp)).fs, Parent(t))
  {
    var mid := RunAll(fs, SwapCommands(s.asterisk, s.tftp)).fs;
    SwapStopPhases(fs, s, tree, mid);
    SiblingsUnrelated(v);
    HitIsElsewhere(v, t, v.active);
    HitIsElsewhere(v, t, w.active);
    HitIsElsewhere(v, t, s.staging.parts);
    EmptyHasNoFiles();
    CanMakeMeans(mid, Parent(t));
    forall k | 0 <= k <= |Parent(t)| ensures !IsFile(mid, Parent(t)[..k]) {
      NoFileOnTheWay(fs, s, v, w, mid, Parent(t), Parent(t)[..k]);
    }
  }

  lemma NoFileOnTheWay(fs: Node, s: Settings, v: Volume, w: Volume, mid: Node, p: Path, r: Path)
    requires Pair(s, v, w) && mid == RunAll(fs, SwapCommands(s.asterisk, s.tftp)).fs && r <= p
    requires FilesOnlyIn(fs, s.staging.parts) && !(v.active <= p) && !(w.active <= p) && !(s.staging.parts <= p)
    requires Exists(mid, v.backup) && NoFiles(Get(mid, v.backup).value)
    requires Exists(mid, w.backup) && NoFiles(Get(mid, w.backup).value)
    ensures !IsFile(mid, r)
  {
    if v.backup <= r { HeldNoFile(mid, v.backup, r); }
    else if w.backup <= r { HeldNoFile(mid, w.backup, r); }
    else { SwapNoFile(fs, s, r); }
  }

  lemma HeldNoFile(mid: Node, p: Path, r: Path)
    requires Exists(mid, p) && NoFiles(Get(mid, p).value) && p <= r
    ensures !IsFile(mid, r)
  {
    HeldBelow(mid, p, r);
    assert !IsFile(Get(mid, p).value, r[|p|..]);
  }

  /** Where an old tree must have a directory for the removal to take something from it. */
  function RemovedFrom(v: Volume, t: Path): Path
    requires t != []
  {
    if v.backup <= Previous(t) then Previous(t)[|v.backup|..] else []
  }

  /** From a swap of such trees some stop of the marker's commands loses the old one. */
  lemma SomeStopLoses(mid: Node, v: Volume, was: Node, next: Node, source: Path, t: Path) returns (left: Node)
    requires Sound(v) && Swapped(mid, v, Some(was), next) && was != next && t != [] && Hits(v, t)
    requires Exists(was, RemovedFrom(v, t)) && CanMake(mid, Parent(t))
    ensures Leaves(mid, InstallMarker(source, t, false), left) && Lost(left, v, was)
  {
    if Unrelated(v.backup, Previous(t)) {
      if v.backup <= t && v.backup != t { BelowPrevious(v.backup, t); }
      left := StopsAfterAside(mid, source, t);
      AsideLoses(mid, left, v, was, next, t);
    } else {
      left := Removed(mid, t);
      StopsAfterRemoval(mid, source, t);
      RemovalLoses(mid, v, was, next, t);
    }
  }

  lemma BelowPrevious(p: Path, t: Path)
    requires t != [] && p <= t && p != t
    ensures p <= Previous(t)
  {
    assert p <= Parent(t);
    assert Parent(t) <= Previous(t);
  }

  lemma HitLoses(s: Settings, marker: PosixPath, bundle: Path, tree: Node, v: Volume, w: Volume)
    requires Layout(s) && Pair(s, v, w) && "asterisk" in Kids(tree) && "tftp" in Kids(tree)
    requires marker.absolute && marker.parts != [] && !Coincide(s, marker, bundle) && Hits(v, marker.parts)
    ensures !KeepsOldTrees(s, marker, bundle, tree)
  {
    var t := marker.parts;
    var next := NewTree(s, tree, v);
    var was := OldWith(RemovedFrom(v, t), next);
    OldWithHas(RemovedFrom(v, t), next);
    var fs := StagedOver(s, v, w, tree, was);
    ActiveDirsCanBeMade(fs, s, v);
    ActiveDirsCanBeMade(fs, s, w);
    StagedSwap(fs, s, tree);
    var mid := RunAll(fs, SwapCommands(s.asterisk, s.tftp)).fs;
    SwapStopPhases(fs, s, tree, mid);
    HitDirCanBeMade(fs, s, v, w, tree, t);
    var left := SomeStopLoses(mid, v, was, next, Source(s, bundle), t);
    InstallStopIsAStop(fs, s, marker, bundle, tree, left);
    LossIsAFailure(fs, s, marker, bundle, tree, v, was, left);
  }

  lemma ActiveDirsCanBeMade(fs: Node, s: Settings, v: Volume)
    requires FilesOnlyIn(fs, s.staging.parts) && Sound(v) && Unrelated(v.active, s.staging.parts)
    ensures CanMake(fs, v.parent)
  {
    assert v.parent <= v.active;
    ClearOfFiles(fs, s.staging.parts, v.parent);
  }

  lemma LossIsAFailure(fs: Node, s: Settings, marker: PosixPath, bundle: Path, tree: Node, v: Volume, was: Node,
                       left: Node)
    requires marker.parts != [] && Staged(fs, s, tree) && Leaves(fs, Script(s, marker, bundle), left)
    requires v in {s.asterisk, s.tftp} && Get(fs, v.active) == Some(was) && Lost(left, v, was)
    ensures !KeepsOldTrees(s, marker, bundle, tree)
  {
    assert !OldTreesKept(fs, s, left);
  }

  /** The old trees outlive every stop of the script, on every file system with the bundle staged, if and only
      if the marker is no absolute path, or its source and target are one place, or neither the target nor the
      target's own backup stands at, in or above the backup of a volume. The settings check does not look at
      the marker's path at all. */
  lemma OldTreesKeptIffMarkerIsAway(s: Settings, marker: PosixPath, bundle: Path, tree: Node)
    requires Layout(s) && marker.parts != [] && "asterisk" in Kids(tree) && "tftp" in Kids(tree)
    ensures KeepsOldTrees(s, marker, bundle, tree) <==> BackupsAreSafe(s, marker, bundle)
  {
    if BackupsAreSafe(s, marker, bundle) {
      forall fs, left | Staged(fs, s, tree) && Leaves(fs, Script(s, marker, bundle), left)
        ensures OldTreesKept(fs, s, left)
      {
        DeploymentIsCrashSafe(fs, s, marker, bundle, tree, left);
      }
    } else if Hits(s.asterisk, marker.parts) {
      HitLoses(s, marker, bundle, tree, s.asterisk, s.tftp);
    } else {
      HitLoses(s, marker, bundle, tree, s.tftp, s.asterisk);
    }
  }

  // ----- a marker at an active path --------------------------------------------------------------------------------

  /** A failing marker: the text of the active path itself, when that is not under /etc/asterisk. On every file
      system with the bundle staged the script then goes through, and what it leaves is a file in place of the
      active tree and the new tree in place of the old one's only copy. */
  lemma MarkerAtActivePath(fs: Node, staging: PosixPath, asterisk: string, tftp: string, members: seq<Member>, i: nat)
    requires PlainSettings(staging, asterisk, tftp)
    requires var marker := ReadPath(asterisk); marker.absolute && !UnderAsterisk(marker) && SafeRelative(marker.parts)
    requires i < |members| && members[i].path == ["active-config"] + Parse(asterisk)
    requires var x := Extracted(members, ["active-config"] + Parse(asterisk), |members|);
             var s := SettingsOf(staging, asterisk, tftp);
             x.Some? && Staged(fs, s, x.value) && CanMake(fs, s.asterisk.parent) && CanMake(fs, s.tftp.parent)
    ensures BundlePath(ReadPath(asterisk)) == Some(["active-config"] + Parse(asterisk))
    ensures var bundle := ["active-config"] + Parse(asterisk); var s := SettingsOf(staging, asterisk, tftp);
            var o := RunAll(fs, Script(s, ReadPath(asterisk), bundle));
            var tree := Extracted(members, bundle, |members|).value;
            && o.Done? && Content(members, bundle).Some? && "asterisk" in Kids(tree)
            && Get(o.fs, s.asterisk.active) == Some(File(Content(members, bundle).value))
            && Get(o.fs, s.asterisk.backup) == Some(Kids(tree)["asterisk"])
  {
    var s, bundle := SettingsOf(staging, asterisk, tftp), ["active-config"] + Parse(asterisk);
    PlainSettingsLayOut(staging, asterisk, tftp);
    MarkerOverActive(fs, s, ReadPath(asterisk), bundle, members, i);
  }

  lemma MarkerOverActive(fs: Node, s: Settings, marker: PosixPath, bundle: Path, members: seq<Member>, i: nat)
    requires Layout(s) && marker.absolute && marker.parts == s.asterisk.active
    requires BundlePath(marker) == Some(bundle) && bundle == ["active-config"] + marker.parts
    requires i < |members| && members[i].path == bundle
    requires var x := Extracted(members, bundle, |members|); x.Some? && Staged(fs, s, x.value)
    requires CanMake(fs, s.asterisk.parent) && CanMake(fs, s.tftp.parent)
    ensures var o := RunAll(fs, Script(s, marker, bundle)); var tree := Extracted(members, bundle, |members|).value;
            && o.Done? && Content(members, bundle).Some?
            && Get(o.fs, s.asterisk.active) == Some(File(Content(members, bundle).value))
            && Get(o.fs, s.asterisk.backup) == Some(Kids(tree)["asterisk"])
  {
    MarkerDelivered(fs, s, marker, members, i);
    StagedSwap(fs, s, Extracted(members, bundle, |members|).value);
    UnrelatedBelow(s.asterisk.active, s.staging.parts, bundle);
    UnrelatedBelow(s.asterisk.backup, s.staging.parts, bundle);
    assert Previous(marker.parts) == s.asterisk.backup;
    assert Source(s, bundle) == s.staging.parts + bundle;
    DeliveredOver(RunAll(fs, SwapCommands(s.asterisk, s.tftp)).fs, RunAll(fs, Script(s, marker, bundle)),
                  s.staging.parts + bundle, marker.parts, Content(members, bundle).value);
  }

  /** Over something that stands there, a delivery from elsewhere always goes through and backs it up. */
  lemma DeliveredOver(mid: Node, o: Outcome, source: Path, t: Path, content: seq<int>)
    requires t != [] && Delivered(mid, o, source, t, false, content) && Exists(mid, t)
    requires !(t <= source) && !(Previous(t) <= source)
    ensures o.Done? && Get(o.fs, t) == Some(File(content)) && Get(o.fs, Previous(t)) == Get(mid, t)
  {
    ParentIsDir(mid, t);
    DirCanBeMade(mid, Parent(t));
  }

}
