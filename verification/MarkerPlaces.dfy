/** Whether and how the marker reaches its path, told from the texts and the file system as they are before
    the script runs. */
module MarkerPlaces {
  import opened Wrappers
  import opened RemoteFs
  import opened PathText
  import opened SwapVolumes
  import opened MarkerDelivery

  // ----- targets out of the way ------------------------------------------------------------------------------------

  /** None of the volume's places, nor the staging directory, is at, above or below this one. */
  predicate ClearOfAll(s: Settings, p: Path) {
    Clear(s.asterisk, p) && Clear(s.tftp, p) && Unrelated(s.staging.parts, p)
  }

  predicate InActive(s: Settings, target: Path) { s.asterisk.active < target || s.tftp.active < target }

  /** The target and its backup are clear of everything the swap moves, or the target is inside an active
      tree and neither it nor its backup is at or above the source. */
  predicate Placed(s: Settings, source: Path, target: Path)
    requires target != []
  {
    || (ClearOfAll(s, target) && ClearOfAll(s, Previous(target)))
    || (InActive(s, target) && !(target <= source) && !(Previous(target) <= source))
  }

  /** No file is in the way of the target's directory: in the tree that is about to be put around it, or, if
      there is none, as things are. */
  predicate CanMakeTargetDir(fs: Node, s: Settings, tree: Node, target: Path)
    requires target != [] && "asterisk" in Kids(tree) && "tftp" in Kids(tree)
  {
    if s.asterisk.active < target then CanMake(Kids(tree)["asterisk"], Parent(target)[|s.asterisk.active|..])
    else if s.tftp.active < target then CanMake(Kids(tree)["tftp"], Parent(target)[|s.tftp.active|..])
    else CanMake(fs, Parent(target))
  }

  lemma SwapNoFile(fs: Node, s: Settings, r: Path)
    requires !(s.asterisk.active <= r) && !(s.asterisk.backup <= r) && !(s.tftp.active <= r) && !(s.tftp.backup <= r)
    requires !IsFile(fs, r)
    ensures !IsFile(RunAll(fs, SwapCommands(s.asterisk, s.tftp)).fs, r)
  {
    RunAllJoins(fs, VolumeCommands(s.asterisk), VolumeCommands(s.tftp));
    VolumeNoFile(fs, s.asterisk, r);
    if RunAll(fs, VolumeCommands(s.asterisk)).Done? {
      VolumeNoFile(RunAll(fs, VolumeCommands(s.asterisk)).fs, s.tftp, r);
    }
  }

  /** A file that is not at or below a place, nor above one, is spared. */
  lemma SwapKeepsFile(fs: Node, s: Settings, r: Path)
    requires Layout(s) && Clear(s.asterisk, r) && Clear(s.tftp, r)
    ensures Get(RunAll(fs, SwapCommands(s.asterisk, s.tftp)).fs, r) == Get(fs, r)
  {
    CommandsSpare(s.asterisk, r);
    CommandsSpare(s.tftp, r);
    RunAllLeaves(fs, SwapCommands(s.asterisk, s.tftp));
    ScriptSpares(fs, SwapCommands(s.asterisk, s.tftp), r, RunAll(fs, SwapCommands(s.asterisk, s.tftp)).fs);
  }

  /** A file that is not at or below a place is not above one either: the place's directory could not be made. */
  lemma FileOutsideIsClear(fs: Node, v: Volume, r: Path)
    requires Sound(v) && IsFile(fs, r) && !(v.active <= r) && !(v.backup <= r) && !(v.staged <= r)
    requires CanMake(fs, v.parent) && Exists(fs, v.staged)
    ensures Clear(v, r)
  {
    if r <= v.staged && r != v.staged { AboveIsDir(fs, r, v.staged); }
    if r <= v.active { FileNotAbove(fs, r, v.active); }
    if r <= v.backup { FileNotAbove(fs, r, v.backup); }
  }

  lemma FileNotAbove(fs: Node, r: Path, p: Path)
    requires IsFile(fs, r) && r <= p && p != [] && CanMake(fs, Parent(p))
    ensures r == p
  {
    if r != p {
      assert r <= Parent(p);
      FileBlocks(fs, r, Parent(p));
    }
  }

  /** The swap changes nothing about whether a clear target's directory can be made. */
  lemma TargetDirUnchanged(fs: Node, s: Settings, tree: Node, target: Path)
    requires Layout(s) && Staged(fs, s, tree) && target != []
    requires CanMake(fs, s.asterisk.parent) && CanMake(fs, s.tftp.parent)
    requires Clear(s.asterisk, target) && Clear(s.tftp, target)
    ensures CanMake(RunAll(fs, SwapCommands(s.asterisk, s.tftp)).fs, Parent(target)) <==> CanMake(fs, Parent(target))
  {
    var mid := RunAll(fs, SwapCommands(s.asterisk, s.tftp)).fs;
    StagedTrees(fs, s, tree);
    CanMakeMeans(fs, Parent(target));
    CanMakeMeans(mid, Parent(target));
    forall k | 0 <= k <= |Parent(target)|
      ensures IsFile(mid, Parent(target)[..k]) <==> IsFile(fs, Parent(target)[..k])
    {
      SameOnTheWay(fs, s, target, Parent(target)[..k]);
    }
  }

  lemma SameOnTheWay(fs: Node, s: Settings, target: Path, r: Path)
    requires Layout(s) && Exists(fs, s.asterisk.staged) && Exists(fs, s.tftp.staged)
    requires CanMake(fs, s.asterisk.parent) && CanMake(fs, s.tftp.parent)
    requires Clear(s.asterisk, target) && Clear(s.tftp, target) && r <= target
    ensures IsFile(RunAll(fs, SwapCommands(s.asterisk, s.tftp)).fs, r) <==> IsFile(fs, r)
  {
    if IsFile(fs, r) {
      FileOutsideIsClear(fs, s.asterisk, r);
      FileOutsideIsClear(fs, s.tftp, r);
      SwapKeepsFile(fs, s, r);
    } else {
      SwapNoFile(fs, s, r);
    }
  }

  lemma TargetDirAfterSwap(fs: Node, s: Settings, tree: Node, source: Path, target: Path)
    requires Layout(s) && Staged(fs, s, tree) && target != [] && Placed(s, source, target)
    requires CanMake(fs, s.asterisk.parent) && CanMake(fs, s.tftp.parent)
    ensures var mid := RunAll(fs, SwapCommands(s.asterisk, s.tftp)).fs;
            CanMake(mid, Parent(target)) <==> CanMakeTargetDir(fs, s, tree, target)
  {
    var mid := RunAll(fs, SwapCommands(s.asterisk, s.tftp)).fs;
    StagedSwap(fs, s, tree);
    if s.asterisk.active < target {
      PrefixIsBelow(s.asterisk.active, Parent(target));
      CanMakeBelow(mid, s.asterisk.active, Parent(target)[|s.asterisk.active|..]);
    } else if s.tftp.active < target {
      PrefixIsBelow(s.tftp.active, Parent(target));
      CanMakeBelow(mid, s.tftp.active, Parent(target)[|s.tftp.active|..]);
    } else {
      TargetDirUnchanged(fs, s, tree, target);
    }
  }

  /** The copy's source is in the staging directory or in an active tree, out of the target's way. */
  lemma PlacedIsOutOfTheWay(s: Settings, bundle: Path, target: Path)
    requires target != [] && Placed(s, Source(s, bundle), target)
    ensures !(target <= Source(s, bundle)) && !(Previous(target) <= Source(s, bundle))
  {
    if ClearOfAll(s, target) && ClearOfAll(s, Previous(target)) {
      UnrelatedBelowAll(s, bundle, target);
      UnrelatedBelowAll(s, bundle, Previous(target));
    }
  }

  lemma UnrelatedBelowAll(s: Settings, bundle: Path, p: Path)
    requires ClearOfAll(s, p)
    ensures Unrelated(p, Source(s, bundle))
  {
    UnrelatedBelow(p, s.staging.parts, bundle);
    if |bundle| >= 2 {
      UnrelatedBelow(p, s.asterisk.active, bundle[1..]);
      UnrelatedBelow(p, s.tftp.active, bundle[1..]);
    }
  }

  // ----- any target: the files after the swap, read off before it ----------------------------------------------------

  /** The file at `q` in what stands somewhere, if anything does. */
  function FileIn(n: Option<Node>, q: Path): Option<seq<int>> {
    if n.Some? && IsFile(n.value, q) then Some(Get(n.value, q).value.content) else None
  }

  /** The file that will be at `q` once the volumes are swapped: one of a staged tree, one of an old tree, or
      the one that is there now. */
  function FileAfter(fs: Node, s: Settings, tree: Node, q: Path): Option<seq<int>>
    requires "asterisk" in Kids(tree) && "tftp" in Kids(tree)
  {
    var a, t := s.asterisk, s.tftp;
    if a.active <= q then FileIn(Some(Kids(tree)["asterisk"]), q[|a.active|..])
    else if t.active <= q then FileIn(Some(Kids(tree)["tftp"]), q[|t.active|..])
    else if a.backup <= q then FileIn(Get(fs, a.active), q[|a.backup|..])
    else if t.backup <= q then FileIn(Get(fs, t.active), q[|t.backup|..])
    else if a.staged <= q || t.staged <= q then None
    else FileIn(Some(fs), q)
  }

  lemma FileHeld(mid: Node, p: Path, n: Option<Node>, q: Path)
    requires Get(mid, p) == n && p <= q
    ensures FileIn(Some(mid), q) == FileIn(n, q[|p|..])
  {
    PrefixIsBelow(p, q);
    GetBelow(mid, p, q[|p|..]);
  }

  lemma FileAfterSwap(fs: Node, s: Settings, tree: Node, q: Path)
    requires Layout(s) && Staged(fs, s, tree) && CanMake(fs, s.asterisk.parent) && CanMake(fs, s.tftp.parent)
    ensures FileIn(Some(RunAll(fs, SwapCommands(s.asterisk, s.tftp)).fs), q) == FileAfter(fs, s, tree, q)
  {
    var a, t := s.asterisk, s.tftp;
    var mid := RunAll(fs, SwapCommands(a, t)).fs;
    StagedSwap(fs, s, tree);
    if a.active <= q { FileHeld(mid, a.active, Some(Kids(tree)["asterisk"]), q); }
    else if t.active <= q { FileHeld(mid, t.active, Some(Kids(tree)["tftp"]), q); }
    else if a.backup <= q { FileHeld(mid, a.backup, Get(fs, a.active), q); }
    else if t.backup <= q { FileHeld(mid, t.backup, Get(fs, t.active), q); }
    else if a.staged <= q { FileHeld(mid, a.staged, None, q); }
    else if t.staged <= q { FileHeld(mid, t.staged, None, q); }
    else { StagedTrees(fs, s, tree); FileElsewhere(fs, s, q); }
  }

  lemma FileElsewhere(fs: Node, s: Settings, q: Path)
    requires Layout(s) && Exists(fs, s.asterisk.staged) && Exists(fs, s.tftp.staged)
    requires CanMake(fs, s.asterisk.parent) && CanMake(fs, s.tftp.parent)
    requires !(s.asterisk.active <= q) && !(s.asterisk.backup <= q) && !(s.asterisk.staged <= q)
    requires !(s.tftp.active <= q) && !(s.tftp.backup <= q) && !(s.tftp.staged <= q)
    ensures FileIn(Some(RunAll(fs, SwapCommands(s.asterisk, s.tftp)).fs), q) == FileIn(Some(fs), q)
  {
    if IsFile(fs, q) {
      FileOutsideIsClear(fs, s.asterisk, q);
      FileOutsideIsClear(fs, s.tftp, q);
      SwapKeepsFile(fs, s, q);
    } else {
      SwapNoFile(fs, s, q);
    }
  }

  /** No file will be in the way of the directory `p`. */
  ghost predicate WillBeMakeable(fs: Node, s: Settings, tree: Node, p: Path)
    requires "asterisk" in Kids(tree) && "tftp" in Kids(tree)
  {
    forall k | 0 <= k <= |p| :: FileAfter(fs, s, tree, p[..k]) == None
  }

  lemma MakeableAfterSwap(fs: Node, s: Settings, tree: Node, p: Path)
    requires Layout(s) && Staged(fs, s, tree) && CanMake(fs, s.asterisk.parent) && CanMake(fs, s.tftp.parent)
    ensures CanMake(RunAll(fs, SwapCommands(s.asterisk, s.tftp)).fs, p) <==> WillBeMakeable(fs, s, tree, p)
  {
    var mid := RunAll(fs, SwapCommands(s.asterisk, s.tftp)).fs;
    CanMakeMeans(mid, p);
    forall k | 0 <= k <= |p| ensures IsFile(mid, p[..k]) <==> FileAfter(fs, s, tree, p[..k]) != None {
      FileAfterSwap(fs, s, tree, p[..k]);
    }
  }

  /** What the copy will find, when what stands at the target has become its backup. */
  function WillBeCopied(fs: Node, s: Settings, tree: Node, source: Path, t: Path): Option<seq<int>>
    requires t != [] && "asterisk" in Kids(tree) && "tftp" in Kids(tree)
  {
    if t <= source then None
    else if Previous(t) <= source then FileAfter(fs, s, tree, t + source[|t|..])
    else FileAfter(fs, s, tree, source)
  }

  lemma CopiedAfterSwap(fs: Node, s: Settings, tree: Node, source: Path, t: Path)
    requires Layout(s) && Staged(fs, s, tree) && CanMake(fs, s.asterisk.parent) && CanMake(fs, s.tftp.parent) && t != []
    ensures var found := FoundAtSource(RunAll(fs, SwapCommands(s.asterisk, s.tftp)).fs, source, t);
            var copied := WillBeCopied(fs, s, tree, source, t);
            && (copied.Some? <==> found.Some? && found.value.File?)
            && (copied.Some? ==> found == Some(File(copied.value)))
  {
    if Previous(t) <= source { FileAfterSwap(fs, s, tree, t + source[|t|..]); }
    FileAfterSwap(fs, s, tree, source);
  }

  /** The bundle path as the deployment reads it from the manifest that the exporter wrote for this text. */
  function ManifestPath(text: string): Path
    requires BundlePath(ReadPath(text)).Some?
  {
    Parse(Join(BundlePath(ReadPath(text)).value))
  }

  lemma ManifestPathIsBundlePath(text: string)
    requires BundlePath(ReadPath(text)).Some?
    ensures ManifestPath(text) == BundlePath(ReadPath(text)).value
  {
    BundlePathIsNames(text);
    ManifestRoundTrip(BundlePath(ReadPath(text)).value);
  }

  /** What a whole deployment delivers, from what can be read off before it: the marker's text, the texts of
      the active paths, the archive, and the remote file system with the bundle uploaded. Where source and
      target are one place the content always arrives. Else the script goes through exactly when no file will
      be in the way of the target's directory and the copy will find one, which is then at the target; and
      where the target is out of the swap's way, or inside an active tree and not above the source, that file
      is the marker's, and only the target's directory decides. */
  lemma MarkerReachesItsPath(fs: Node, text: string, staging: PosixPath, asterisk: string, tftp: string,
                             members: seq<Member>, i: nat)
    requires BundlePath(ReadPath(text)).Some? && ReadPath(text).absolute && PlainSettings(staging, asterisk, tftp)
    requires i < |members| && members[i].path == ManifestPath(text)
    requires var x := Extracted(members, ManifestPath(text), |members|); var s := SettingsOf(staging, asterisk, tftp);
             x.Some? && Staged(fs, s, x.value) && CanMake(fs, s.asterisk.parent) && CanMake(fs, s.tftp.parent)
    ensures var bundle := ManifestPath(text); var s := SettingsOf(staging, asterisk, tftp);
            var target := ReadPath(text).parts;
            && target != [] && Content(members, bundle).Some?
            && var o := RunAll(fs, Script(s, ReadPath(text), bundle));
            var there := o.Done? && Get(o.fs, target) == Some(File(Content(members, bundle).value));
            var tree := Extracted(members, bundle, |members|).value;
            && (Coincide(s, ReadPath(text), bundle) ==> there)
            && (!Coincide(s, ReadPath(text), bundle) ==>
                  var copied := WillBeCopied(fs, s, tree, Source(s, bundle), target);
                  && (o.Done? <==> WillBeMakeable(fs, s, tree, Parent(target)) && copied.Some?)
                  && (o.Done? ==> Get(o.fs, target) == Some(File(copied.value))))
            && (!Coincide(s, ReadPath(text), bundle) && Placed(s, Source(s, bundle), target) ==>
                  (o.Done? <==> CanMakeTargetDir(fs, s, tree, target)) && (o.Done? ==> there))
  {
    var marker, s, bundle := ReadPath(text), SettingsOf(staging, asterisk, tftp), ManifestPath(text);
    ManifestPathIsBundlePath(text);
    PlainSettingsLayOut(staging, asterisk, tftp);
    MarkerDelivered(fs, s, marker, members, i);
    var tree := Extracted(members, bundle, |members|).value;
    MakeableAfterSwap(fs, s, tree, Parent(marker.parts));
    CopiedAfterSwap(fs, s, tree, Source(s, bundle), marker.parts);
    if !Coincide(s, marker, bundle) && Placed(s, Source(s, bundle), marker.parts) {
      TargetDirAfterSwap(fs, s, tree, Source(s, bundle), marker.parts);
      PlacedIsOutOfTheWay(s, bundle, marker.parts);
    }
  }
}
