/** A staging directory in, at or above a volume's own places: the swap then never works, and two attempts
    in a row delete the old tree. */
module SwapStaging {
  import opened Wrappers
  import opened RemoteFs
  import opened PathText
  import opened SwapVolumes

  // ----- up to the last command --------------------------------------------------------------------------

  /** The old tree set aside, wherever the staged one is. */
  predicate SetAside(fs: Node, v: Volume, was: Node) {
    Get(fs, v.active) == None && Get(fs, v.backup) == Some(was)
  }

  /** The first three commands over an active tree; the last one then runs from `aside`. */
  lemma ThreeRun(fs: Node, v: Volume, was: Node) returns (gone: Node, aside: Node)
    requires BackupBeside(v) && Get(fs, v.active) == Some(was)
    ensures gone == Delete(fs, v.backup) && aside == Put(Delete(gone, v.active), v.backup, was)
    ensures SetAside(aside, v, was) && IsDir(aside, v.parent)
    ensures RunAll(fs, VolumeCommands(v)) == Exec(aside, Mv(v.staged, v.active))
  {
    var c3 := WhenExists(v.active, Mv(v.active, v.backup));
    var last := [Mv(v.staged, v.active)] + [];
    SiblingsUnrelated(v);
    ParentIsDir(fs, v.active);
    DirCanBeMade(fs, v.parent);
    MakeDirsIdle(fs, v.parent);
    RunFirst(fs, MkdirP(v.parent), [RmRf(v.backup)] + ([c3] + last));
    gone := Delete(fs, v.backup);
    GetDelete(fs, v.backup);
    GetDeleteElsewhere(fs, v.backup, v.active);
    DeleteKeepsDir(fs, v.backup, v.parent);
    RunFirst(fs, RmRf(v.backup), [c3] + last);
    aside := AsideRun(gone, v, was);
    RunFirst(gone, c3, last);
    RunFirst(aside, Mv(v.staged, v.active), []);
  }

  lemma AsideRun(gone: Node, v: Volume, was: Node) returns (aside: Node)
    requires BackupBeside(v) && Get(gone, v.active) == Some(was) && Get(gone, v.backup) == None && IsDir(gone, v.parent)
    ensures aside == Put(Delete(gone, v.active), v.backup, was)
    ensures Exec(gone, WhenExists(v.active, Mv(v.active, v.backup))) == Done(aside)
    ensures SetAside(aside, v, was) && IsDir(aside, v.parent)
  {
    SiblingsUnrelated(v);
    assert Parent(v.backup) == v.parent;
    var without := Delete(gone, v.active);
    aside := Put(without, v.backup, was);
    GetDelete(gone, v.active);
    GetPut(without, v.backup, was);
    GetPutElsewhere(without, v.backup, v.active, was);
    ParentIsDir(aside, v.backup);
  }

  // ----- staging in, at or above the active path ------------------------------------------------------------

  /** With the staged tree at, in or above the active one the commands fail, whatever the file system, and
      leave nothing active and the old tree as the backup. */
  lemma StagingInsideFails(fs: Node, v: Volume, was: Node)
    requires BackupBeside(v) && Get(fs, v.active) == Some(was) && !Unrelated(v.staged, v.active)
    ensures var o := RunAll(fs, VolumeCommands(v)); o.Failed? && SetAside(o.fs, v, was)
  {
    var gone, aside := ThreeRun(fs, v, was);
    if v.active <= v.staged { MissingBelow(aside, v.active, v.staged); }
  }

  /** With it at or in the backup's place it is removed at once; whatever the last command then puts in the
      active place, it is not the new tree with the old one as its backup. */
  lemma StagingInBackupFails(fs: Node, v: Volume, was: Node, next: Node)
    requires BackupBeside(v) && Get(fs, v.active) == Some(was) && v.backup <= v.staged
    ensures var o := RunAll(fs, VolumeCommands(v)); !(o.Done? && Swapped(o.fs, v, Some(was), next))
  {
    var gone, aside := ThreeRun(fs, v, was);
    var o := RunAll(fs, VolumeCommands(v));
    PrefixIsBelow(v.backup, v.staged);
    var rest := v.staged[|v.backup|..];
    GetBelow(aside, v.backup, rest);
    if o.Done? { GetBelow(o.fs, v.backup, rest); }
  }

  /** A backup inside the active tree stops the commands, wherever staging is. */
  lemma NestedBackupStops(fs: Node, v: Volume, was: Node, x: string)
    requires v.active != [] && v.backup == v.active + [x] && (v.parent == Parent(v.active) || v.parent == v.active)
    requires Get(fs, v.active) == Some(was)
    ensures RunAll(fs, VolumeCommands(v)).Failed?
  {
    var c3 := WhenExists(v.active, Mv(v.active, v.backup));
    var last := [c3] + ([Mv(v.staged, v.active)] + []);
    RunFirst(fs, MkdirP(v.parent), [RmRf(v.backup)] + last);
    if CanMake(fs, v.parent) {
      if v.parent == v.active { ActiveIsDir(fs, v.active); MakeDirsIdle(fs, v.active); }
      else { GetMakeDirs(fs, v.parent, v.active); }
      var made := MakeDirs(fs, v.parent);
      RunFirst(made, RmRf(v.backup), last);
      DeleteBelow(made, v.active, [x]);
      GetDelete(made, v.backup);
      RunFirst(Delete(made, v.backup), c3, [Mv(v.staged, v.active)] + []);
    }
  }

  lemma ActiveIsDir(fs: Node, p: Path)
    requires CanMake(fs, p) && Exists(fs, p)
    ensures IsDir(fs, p)
  {
    if IsFile(fs, p) { FileBlocks(fs, p, p); }
  }

  /** When a volume is swapped over an active tree, from the texts alone: if and only if its path does not end
      in a slash or in `/.`, and the staged tree is neither at, in nor above the active place or the backup. */
  lemma SwapsIffPlainAndAside(fs: Node, staging: Path, name: string, active: string, was: Node, next: Node)
    requires Parse(active) != [] && Waiting(fs, VolumeAt(staging, name, active), Some(was), next)
    ensures var v := VolumeAt(staging, name, active); var o := RunAll(fs, VolumeCommands(v));
            (o.Done? && Swapped(o.fs, v, Some(was), next))
            <==> (EndsPlainly(active) && Unrelated(v.staged, v.active) && Unrelated(v.staged, v.backup))
  {
    var v := VolumeAt(staging, name, active);
    if !EndsPlainly(active) {
      PreviousStands(active);
      DirNameStands(active);
      NestedBackupStops(fs, v, was, LastPiece(active) + ".previous");
    } else {
      PlainBackupIsBeside(staging, name, active);
      PlainSwapsIffAside(fs, v, was, next);
    }
  }

  lemma PlainSwapsIffAside(fs: Node, v: Volume, was: Node, next: Node)
    requires BackupBeside(v) && Waiting(fs, v, Some(was), next)
    ensures var o := RunAll(fs, VolumeCommands(v));
            (o.Done? && Swapped(o.fs, v, Some(was), next))
            <==> (Unrelated(v.staged, v.active) && Unrelated(v.staged, v.backup))
  {
    if !Unrelated(v.staged, v.active) {
      StagingInsideFails(fs, v, was);
    } else if v.backup <= v.staged {
      StagingInBackupFails(fs, v, was, next);
    } else {
      AboveBackupIsAboveActive(v);
      ParentIsDir(fs, v.active);
      DirCanBeMade(fs, v.parent);
      VolumeRuns(fs, v, Some(was), next);
    }
  }

  lemma AboveBackupIsAboveActive(v: Volume)
    requires BackupBeside(v) && Unrelated(v.staged, v.active) && !(v.backup <= v.staged)
    ensures Sound(v)
  {
    assert Parent(v.backup) == Parent(v.active) && Parent(v.active) <= v.active;
  }

  // ----- the next attempt ------------------------------------------------------------------------------------

  /** `_prepare_staging_command`, but for modes. */
  function PrepareStaging(dir: Path): seq<Command> { [RmRf(dir)] + ([MkdirP(dir)] + ([Chmod(dir)] + [])) }

  /** The next attempt's staging directory, made and filled, in the missing active place: that place is then
      a directory with nothing in it but the staged bundle. */
  lemma StagedAgain(fs: Node, v: Volume, was: Node, rest: Path, bundle: Node)
    requires BackupBeside(v) && SetAside(fs, v, was) && rest != []
    ensures var o := RunAll(fs, PrepareStaging(v.active + rest));
            && o.Done?
            && Get(Put(o.fs, v.active + rest, bundle), v.backup) == Some(was)
            && Get(Put(o.fs, v.active + rest, bundle), v.active) == Some(Put(MakeDirs(EMPTY_DIR, rest), rest, bundle))
  {
    var dir := v.active + rest;
    SiblingsUnrelated(v);
    AwayBelow(v, rest);
    var gone := Delete(fs, dir);
    RunFirst(fs, RmRf(dir), [MkdirP(dir)] + ([Chmod(dir)] + []));
    StillMissing(fs, v.active, rest);
    GetDeleteElsewhere(fs, dir, v.backup);
    MissingCanBeMade(gone, v, was, rest);
    var made := MakeDirs(gone, dir);
    RunFirst(gone, MkdirP(dir), [Chmod(dir)] + []);
    MadeDirIsThere(gone, dir);
    RunFirst(made, Chmod(dir), []);
    MakeDirsBelow(gone, v.active, rest);
    NotAboveBelow(v, rest);
    GetMakeDirs(gone, dir, v.backup);
    PutBelow(made, v.active, rest, bundle);
    GetPutElsewhere(made, dir, v.backup, bundle);
  }

  lemma AwayBelow(v: Volume, rest: Path)
    requires BackupBeside(v)
    ensures Unrelated(v.active + rest, v.backup)
  {
    SiblingsUnrelated(v);
    UnrelatedBelow(v.backup, v.active, rest);
  }

  lemma NotAboveBelow(v: Volume, rest: Path)
    requires BackupBeside(v)
    ensures !(v.backup <= v.active + rest)
  {
    AwayBelow(v, rest);
  }

  /** Removing something below a missing place leaves it missing. */
  lemma {:induction false} StillMissing(fs: Node, p: Path, rest: Path)
    requires Get(fs, p) == None && rest != []
    ensures Get(Delete(fs, p + rest), p) == None
    decreases |p|
  {
    assert (p + rest)[1..] == p[1..] + rest;
    if p[0] in Kids(fs) { StillMissing(Kids(fs)[p[0]], p[1..], rest); }
  }

  lemma MissingCanBeMade(fs: Node, v: Volume, was: Node, rest: Path)
    requires BackupBeside(v) && SetAside(fs, v, was)
    ensures CanMake(fs, v.active + rest)
  {
    var dir := v.active + rest;
    assert Parent(v.backup) == v.parent;
    ParentIsDir(fs, v.backup);
    DirCanBeMade(fs, v.parent);
    CanMakeMeans(fs, v.parent);
    CanMakeMeans(fs, dir);
    forall k | 0 <= k <= |dir| ensures !IsFile(fs, dir[..k]) {
      if k <= |v.parent| {
        assert dir[..k] == v.parent[..k];
      } else {
        assert v.active <= dir[..k];
        MissingBelow(fs, v.active, dir[..k]);
      }
    }
  }

  /** Two attempts over an active tree, each with its staging directory inside it: the first fails with the old
      tree as the backup, and the second deletes that backup, the only copy, before it fails too. */
  lemma SecondAttemptDeletesTheOldTree(fs: Node, v: Volume, was: Node, name: string, rest: Path, again: Path,
                                       bundle: Node)
    requires BackupBeside(v) && Get(fs, v.active) == Some(was) && v.staged == v.active + rest + [name] && again != []
    ensures var first := RunAll(fs, VolumeCommands(v));
            var prepared := RunAll(first.fs, PrepareStaging(v.active + again));
            var w := v.(staged := v.active + again + [name]);
            var second := RunAll(Put(prepared.fs, v.active + again, bundle), VolumeCommands(w));
            && first.Failed? && SetAside(first.fs, v, was) && prepared.Done? && second.Failed?
            && SetAside(second.fs, v, Put(MakeDirs(EMPTY_DIR, again), again, bundle))
  {
    assert v.active + rest + [name] == v.active + (rest + [name]);
    assert v.active + again + [name] == v.active + (again + [name]);
    StagingInsideFails(fs, v, was);
    var first := RunAll(fs, VolumeCommands(v)).fs;
    StagedAgain(first, v, was, again, bundle);
    var ready := Put(RunAll(first, PrepareStaging(v.active + again)).fs, v.active + again, bundle);
    StagingInsideFails(ready, v.(staged := v.active + again + [name]), Put(MakeDirs(EMPTY_DIR, again), again, bundle));
  }
}
