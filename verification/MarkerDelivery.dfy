/** The active-configuration marker, from the exporter's path mapping through the archive, the staging
    directory and the swap to the file at its configured path. */
module MarkerDelivery {
  import opened Wrappers
  import opened RemoteFs
  import opened PathText
  import opened SwapVolumes

  // ----- the exporter's mapping --------------------------------------------------------------------------------

  const ASTERISK_ROOT: Path := ["etc", "asterisk"]

  predicate SafeRelative(p: Path) { p != [] && ".." !in p }

  predicate UnderAsterisk(marker: PosixPath) {
    marker.absolute && !marker.doubleRoot && ASTERISK_ROOT <= marker.parts
  }

  /** `active_config_marker_bundle_path`: None where it raises. */
  function BundlePath(marker: PosixPath): Option<Path> {
    if UnderAsterisk(marker) then
      var relative := marker.parts[2..];
      if SafeRelative(relative) then Some(["asterisk"] + relative) else None
    else if SafeRelative(marker.parts) then Some(["active-config"] + marker.parts)
    else None
  }

  /** The bundle path of a marker text is made of names. */
  lemma BundlePathIsNames(text: string)
    requires BundlePath(ReadPath(text)).Some?
    ensures Names(BundlePath(ReadPath(text)).value)
  {
    ParsedAreNames(text);
    MappedAreNames(ReadPath(text));
  }

  /** A marker below `/etc/asterisk` goes with the Asterisk files. */
  lemma AsteriskMarkerMaps(text: string, p: Path)
    requires text == "/etc/asterisk" && p != [] && Names(p) && ".." !in p
    ensures BundlePath(ReadPath(text + "/" + Join(p))) == Some(["asterisk"] + p)
  {
    EtcAsterisk(text);
    ReadBelow(text, p, false);
    EtcMaps(p);
  }

  /** Any other is mirrored under a directory of its own: so is one written with two slashes in front. */
  lemma OtherMarkerMaps(text: string, p: Path)
    requires p != [] && Names(p) && ".." !in p && text == "" && !(["etc", "asterisk"] <= p)
    ensures BundlePath(ReadPath(text + "/" + Join(p))) == Some(["active-config"] + p)
  {
    assert Pieces(text) == [""] && Parse(text) == [] && [] + p == p;
    ReadBelow(text, p, false);
    OtherMaps(p);
  }

  lemma DoubleSlashMarkerMaps(text: string, p: Path)
    requires text == "//etc/asterisk" && p != [] && Names(p) && ".." !in p
    ensures BundlePath(ReadPath(text + "/" + Join(p))) == Some(["active-config", "etc", "asterisk"] + p)
  {
    EtcAsterisk(text);
    ReadBelow(text, p, true);
    EtcMaps(p);
  }

  lemma OtherMaps(p: Path)
    requires p != [] && ".." !in p && !(["etc", "asterisk"] <= p)
    ensures BundlePath(PosixPath(true, false, p)) == Some(["active-config"] + p)
  {
  }

  lemma EtcMaps(p: Path)
    requires p != [] && ".." !in p
    ensures BundlePath(PosixPath(true, false, ["etc", "asterisk"] + p)) == Some(["asterisk"] + p)
    ensures BundlePath(PosixPath(true, true, ["etc", "asterisk"] + p)) == Some(["active-config", "etc", "asterisk"] + p)
  {
    assert (["etc", "asterisk"] + p)[2..] == p;
    assert ["active-config"] + (["etc", "asterisk"] + p) == ["active-config", "etc", "asterisk"] + p;
  }

  lemma ReadBelow(text: string, p: Path, double: bool)
    requires p != [] && Names(p) && double
             == (|text| > 1 && text[0] == text[1] == '/' && (|text| == 2 || text[2] != '/'))
    requires text == "" || (text[0] == '/' && |text| > 2)
    ensures ReadPath(text + "/" + Join(p)) == PosixPath(true, double, Parse(text) + p)
  {
    ManifestRoundTrip(p);
    ParseJoins(text, Join(p));
    JoinStarts(p);
  }

  /** The directory itself is no marker. */
  lemma DirectoryIsRefused(text: string)
    requires text == "/etc/asterisk"
    ensures BundlePath(ReadPath(text)) == None
  {
    EtcAsterisk(text);
  }

  lemma EtcAsterisk(text: string)
    requires text == "/etc/asterisk" || text == "//etc/asterisk"
    ensures Parse(text) == ["etc", "asterisk"]
  {
    var none, slash, etc, asterisk := "", "/", "etc", "asterisk";
    assert Pieces(none) == [""];
    ParseJoins(none, none);
    TwoNames(none, etc, asterisk);
    TwoNames(slash, etc, asterisk);
    assert none + "/" + etc + "/" + asterisk == "/etc/asterisk";
    assert slash + "/" + etc + "/" + asterisk == "//etc/asterisk";
  }

  lemma TwoNames(text: string, a: string, b: string)
    requires Name(a) && Name(b)
    ensures Parse(text + "/" + a + "/" + b) == Parse(text) + [a, b]
  {
    ParseChild(text, a);
    ParseChild(text + "/" + a, b);
  }

  lemma {:induction false} JoinStarts(p: Path)
    requires p != [] && Names(p)
    ensures Join(p) != "" && Join(p)[0] != '/'
  {
    assert p[0] in p;
    if |p| == 1 {
      assert p[0][0] in p[0];
    } else {
      JoinStarts(p[..|p| - 1]);
    }
  }

  lemma MappedAreNames(marker: PosixPath)
    requires Names(marker.parts) && BundlePath(marker).Some?
    ensures Names(BundlePath(marker).value)
  {
    PrefixedAreNames("asterisk", marker.parts);
    PrefixedAreNames("active-config", marker.parts);
  }

  lemma PrefixedAreNames(first: string, p: Path)
    requires Name(first) && Names(p)
    ensures Names([first] + p) && (|p| >= 2 ==> Names([first] + p[2..]))
  {
  }

  // ----- the manifest's text -----------------------------------------------------------------------------------

  /** `as_posix()` of a relative path. */
  function Join(p: Path): string {
    if p == [] then "" else if |p| == 1 then p[0] else Join(p[..|p| - 1]) + "/" + Last(p)
  }

  /** The bundle path survives being written into the manifest and read back. */
  lemma {:induction false} ManifestRoundTrip(p: Path)
    requires p != [] && Names(p)
    ensures Parse(Join(p)) == p
  {
    assert Last(p) in p;
    if |p| == 1 {
      PiecesAppend("", p[0]);
      assert "" + p[0] == p[0] && Pieces("") == [""];
      assert Pieces(p[0]) == [p[0]];
      assert Keep([p[0]][..0]) == [];
    } else {
      var init := p[..|p| - 1];
      ManifestRoundTrip(init);
      ParseChild(Join(init), Last(p));
    }
  }

  // ----- the archive and the bundle ------------------------------------------------------------------------------

  datatype Member = Member(path: Path, content: seq<int>)

  /** `archive.read(name)`: of members with the same name the last one answers. */
  function Content(members: seq<Member>, path: Path): Option<seq<int>> {
    if members == [] then None
    else if members[|members| - 1].path == path then Some(members[|members| - 1].content)
    else Content(members[..|members| - 1], path)
  }

  predicate Deployable(path: Path, marker: Path) {
    |path| >= 1 && (path == marker || (|path| >= 2 && path[0] in {"asterisk", "tftp", "scripts"}))
  }

  predicate CanWrite(tree: Node, path: Path) {
    path != [] && CanMake(tree, Parent(path)) && !IsDir(tree, path)
  }

  /** The bundle directory after the first `k` members; None where writing one raises. */
  function Extracted(members: seq<Member>, marker: Path, k: nat): Option<Node>
    requires k <= |members|
  {
    if k == 0 then Some(EMPTY_DIR)
    else
      var before := Extracted(members, marker, k - 1);
      var path := members[k - 1].path;
      if before.None? || !Deployable(path, marker) then before
      else if CanWrite(before.value, path) && Content(members, path).Some?
      then Some(Put(before.value, path, File(Content(members, path).value)))
      else None
  }

  /** The extraction loop. */
  method Extract(members: seq<Member>, marker: Path) returns (bundle: Option<Node>)
    ensures bundle == Extracted(members, marker, |members|)
  {
    var tree := EMPTY_DIR;
    for k := 0 to |members|
      invariant Extracted(members, marker, k) == Some(tree)
    {
      var member := members[k];
      if Deployable(member.path, marker) {
        var content := Content(members, member.path);
        if !CanWrite(tree, member.path) || content.None? {
          StaysFailed(members, marker, k + 1);
          return None;
        }
        tree := Put(tree, member.path, File(content.value));
      }
    }
    bundle := Some(tree);
  }

  lemma {:induction false} StaysFailed(members: seq<Member>, marker: Path, k: nat)
    requires k <= |members| && Extracted(members, marker, k) == None
    ensures Extracted(members, marker, |members|) == None
    decreases |members| - k
  {
    if k < |members| { StaysFailed(members, marker, k + 1); }
  }

  /** Writing a member disturbs no file written before it. */
  lemma WritingKeeps(tree: Node, path: Path, n: Node, earlier: Path)
    requires CanWrite(tree, path) && IsFile(tree, earlier) && earlier != path
    ensures Get(Put(tree, path, n), earlier) == Get(tree, earlier)
  {
    if earlier <= path {
      assert earlier <= Parent(path);
      FileBlocks(tree, earlier, Parent(path));
    } else if path <= earlier {
      AboveIsDir(tree, path, earlier);
    } else {
      GetPutElsewhere(tree, path, earlier, n);
    }
  }

  /** Every deployable member is in the bundle, with the content the archive answers for its name. */
  lemma {:induction false} BundleHolds(members: seq<Member>, marker: Path, k: nat, i: nat)
    requires i < k <= |members| && Extracted(members, marker, k).Some? && Deployable(members[i].path, marker)
    ensures Content(members, members[i].path).Some?
    ensures Get(Extracted(members, marker, k).value, members[i].path)
            == Some(File(Content(members, members[i].path).value))
  {
    var before := Extracted(members, marker, k - 1);
    var path := members[k - 1].path;
    if i < k - 1 { BundleHolds(members, marker, k - 1, i); }
    if Deployable(path, marker) {
      var n := File(Content(members, path).value);
      if path == members[i].path { GetPut(before.value, path, n); }
      else { WritingKeeps(before.value, path, n, members[i].path); }
    }
  }

  /** So the last member of a name is what the bundle holds under it, if the member is the marker or stands below
      one of the three deployed directories. */
  lemma LastMemberIsHeld(members: seq<Member>, marker: Path, i: nat)
    requires i < |members| && Extracted(members, marker, |members|).Some?
    requires forall j | i < j < |members| :: members[j].path != members[i].path
    requires var path := members[i].path;
             (path != [] && path == marker)
             || (|path| >= 2 && (path[0] == "asterisk" || path[0] == "tftp" || path[0] == "scripts"))
    ensures Get(Extracted(members, marker, |members|).value, members[i].path) == Some(File(members[i].content))
  {
    BundleHolds(members, marker, |members|, i);
    LastAnswers(members, i);
  }

  lemma {:induction false} LastAnswers(members: seq<Member>, i: nat)
    requires i < |members| && forall j | i < j < |members| :: members[j].path != members[i].path
    ensures Content(members, members[i].path) == Some(members[i].content)
  {
    if i < |members| - 1 {
      var init := members[..|members| - 1];
      assert init[i] == members[i];
      LastAnswers(init, i);
    }
  }

  // ----- the remote side -----------------------------------------------------------------------------------------

  /** `upload_bundle` copies these of the bundle's directories, and no others. */
  function Uploaded(bundle: Node): Node {
    Dir(map name | name in Kids(bundle) && name in {"asterisk", "tftp", "active-config"} :: Kids(bundle)[name])
  }

  const SCRIPT_TARGET: Path := ["usr", "local", "sbin", "pbx-recording-retention"]

  function InstallScript(staging: Path): seq<Command> {
    var source := staging + ["scripts", "pbx-recording-retention"];
    [WhenFile(source, MkdirP(Parent(SCRIPT_TARGET))), WhenFile(source, Cp(source, SCRIPT_TARGET)),
     WhenFile(SCRIPT_TARGET, Chmod(SCRIPT_TARGET))]
  }

  function Previous(p: Path): Path
    requires p != []
  {
    Parent(p) + [Last(p) + ".previous"]
  }

  /** Where the marker stands once the volumes are swapped. */
  function SourcePath(staging: Path, asterisk: Path, tftp: Path, bundle: Path): Path {
    if |bundle| >= 2 && bundle[0] == "asterisk" then asterisk + bundle[1..]
    else if |bundle| >= 2 && bundle[0] == "tftp" then tftp + bundle[1..]
    else staging + bundle
  }

  /** `same`: the normalised texts of source and target are equal. */
  function InstallMarker(source: Path, target: Path, same: bool): seq<Command>
    requires target != []
  {
    if same then [Chmod(target)]
    else [MkdirP(Parent(target))] + ([RmRf(Previous(target))] + ([WhenExists(target, Mv(target, Previous(target)))]
         + ([Cp(source, target)] + ([Chmod(target)] + []))))
  }

  /** The scripts of the bundle are not uploaded, so the commands that install them do nothing. */
  lemma ScriptsAreNotInstalled(fs: Node, staging: Path, bundle: Node)
    requires Get(fs, staging) == Some(Uploaded(bundle))
             || Get(fs, staging + ["scripts", "pbx-recording-retention"]) == None
    ensures RunAll(fs, InstallScript(staging)) == Done(fs)
  {
    var source := staging + ["scripts", "pbx-recording-retention"];
    GetBelow(fs, staging, ["scripts", "pbx-recording-retention"]);
    var c1 := WhenFile(source, MkdirP(Parent(SCRIPT_TARGET)));
    var c2 := WhenFile(source, Cp(source, SCRIPT_TARGET));
    var c3 := WhenFile(SCRIPT_TARGET, Chmod(SCRIPT_TARGET));
    assert InstallScript(staging) == [c1] + ([c2] + ([c3] + []));
    RunFirst(fs, c1, [c2] + ([c3] + []));
    RunFirst(fs, c2, [c3] + []);
    RunFirst(fs, c3, []);
  }

  // ----- the install commands --------------------------------------------------------------------------------------

  lemma {:induction false} DeleteRemovesBelow(fs: Node, p: Path, q: Path)
    requires p != [] && p <= q
    ensures Get(Delete(fs, p), q) == None
  {
    GetDelete(fs, p);
    PrefixIsBelow(p, q);
    GetBelow(Delete(fs, p), p, q[|p|..]);
  }

  lemma PreviousUnrelated(t: Path)
    requires t != []
    ensures Unrelated(t, Previous(t)) && Unrelated(Previous(t), t)
  {
    assert |Last(t) + ".previous"| > |Last(t)|;
    assert |t| == |Previous(t)| && t[|t| - 1] != Previous(t)[|t| - 1];
  }

  /** The target's directory made, the old backup gone. */
  lemma InstallBegins(fs: Node, source: Path, t: Path) returns (ready: Node)
    requires t != [] && CanMake(fs, Parent(t)) && IsFile(fs, source)
    ensures Exec(fs, MkdirP(Parent(t))).Done? && Exec(Exec(fs, MkdirP(Parent(t))).fs, RmRf(Previous(t))) == Done(ready)
    ensures Get(ready, Previous(t)) == None && IsDir(ready, Parent(t))
    ensures forall q | t <= q :: Get(ready, q) == Get(fs, q)
    ensures !(source <= Parent(t))
    ensures Get(ready, source) == if Previous(t) <= source then None else Get(fs, source)
  {
    if source <= Parent(t) { FileBlocks(fs, source, Parent(t)); }
    MadeDirIsThere(fs, Parent(t));
    GetMakeDirs(fs, Parent(t), source);
    var made := MakeDirs(fs, Parent(t));
    ready := Delete(made, Previous(t));
    GetDelete(made, Previous(t));
    DeleteKeepsDir(made, Previous(t), Parent(t));
    PreviousUnrelated(t);
    forall q | t <= q ensures Get(ready, q) == Get(fs, q) {
      GetMakeDirs(fs, Parent(t), q);
      GetDeleteElsewhere(made, Previous(t), q);
    }
    if Previous(t) <= source { DeleteRemovesBelow(made, Previous(t), source); }
    else { SourceBeside(source, t); GetDeleteElsewhere(made, Previous(t), source); }
  }

  lemma SourceBeside(source: Path, t: Path)
    requires t != [] && !(source <= Parent(t)) && !(Previous(t) <= source)
    ensures Unrelated(Previous(t), source)
  {
    assert Parent(t) == Previous(t)[..|t| - 1];
  }

  /** What stood at the target becomes the backup. */
  lemma TargetSetAside(ready: Node, source: Path, t: Path) returns (clear: Node)
    requires t != [] && Get(ready, Previous(t)) == None && IsDir(ready, Parent(t)) && !(source <= Parent(t))
    ensures Exec(ready, WhenExists(t, Mv(t, Previous(t)))) == Done(clear)
    ensures Get(clear, t) == None && Get(clear, Previous(t)) == Get(ready, t) && IsDir(clear, Parent(t))
    ensures Get(clear, source) == if t <= source then None
                                  else if Previous(t) <= source then Get(ready, t + source[|t|..])
                                  else Get(ready, source)
  {
    PreviousUnrelated(t);
    if Exists(ready, t) {
      var gone := Delete(ready, t);
      var n := Get(ready, t).value;
      clear := Put(gone, Previous(t), n);
      assert Parent(Previous(t)) == Parent(t);
      GetDelete(ready, t);
      GetPutElsewhere(gone, Previous(t), t, n);
      GetPut(gone, Previous(t), n);
      ParentIsDir(clear, Previous(t));
      SourceAfterMove(ready, source, t);
    } else {
      clear := ready;
      MissingBelow(ready, t, source);
      if Previous(t) <= source { MissingBelow(ready, Previous(t), source); MissingBelow(ready, t, t + source[|t|..]); }
    }
  }

  lemma SourceAfterMove(ready: Node, source: Path, t: Path)
    requires t != [] && Exists(ready, t) && !(source <= Parent(t))
    ensures Get(Put(Delete(ready, t), Previous(t), Get(ready, t).value), source)
              == if t <= source then None
                 else if Previous(t) <= source then Get(ready, t + source[|t|..])
                 else Get(ready, source)
  {
    PreviousUnrelated(t);
    var gone := Delete(ready, t);
    var n := Get(ready, t).value;
    if Previous(t) <= source {
      var rest := source[|t|..];
      PrefixIsBelow(Previous(t), source);
      GetPut(gone, Previous(t), n);
      GetBelow(Put(gone, Previous(t), n), Previous(t), rest);
      GetBelow(ready, t, rest);
    } else {
      SourceBeside(source, t);
      GetPutElsewhere(gone, Previous(t), source, n);
      if t <= source { DeleteRemovesBelow(ready, t, source); }
      else { SourceBesideTarget(source, t); GetDeleteElsewhere(ready, t, source); }
    }
  }

  lemma SourceBesideTarget(source: Path, t: Path)
    requires t != [] && !(source <= Parent(t)) && !(t <= source)
    ensures Unrelated(t, source)
  {
    assert Parent(t) == t[..|t| - 1];
  }

  /** What the copy finds at the source when its turn comes. */
  function FoundAtSource(fs: Node, source: Path, t: Path): Option<Node>
    requires t != []
  {
    if t <= source then None
    else if Previous(t) <= source then Get(fs, t + source[|t|..])
    else Get(fs, source)
  }

  /** The install commands go through exactly when the target's directory can be made and the copy still
      finds a file at the source; then that file's bytes stand at the target, and what stood there before is
      its backup. */
  lemma InstallRuns(fs: Node, source: Path, t: Path)
    requires t != [] && source != [] && IsFile(fs, source)
    ensures var o := RunAll(fs, InstallMarker(source, t, false));
            && (o.Done? <==>
                  CanMake(fs, Parent(t)) && FoundAtSource(fs, source, t).Some?
                  && FoundAtSource(fs, source, t).value.File?)
            && (o.Done? ==> Get(o.fs, t) == FoundAtSource(fs, source, t) && Get(o.fs, Previous(t)) == Get(fs, t))
  {
    var aside := WhenExists(t, Mv(t, Previous(t)));
    var last := [Cp(source, t)] + ([Chmod(t)] + []);
    RunFirst(fs, MkdirP(Parent(t)), [RmRf(Previous(t))] + ([aside] + last));
    if CanMake(fs, Parent(t)) {
      var ready := InstallBegins(fs, source, t);
      RunFirst(Exec(fs, MkdirP(Parent(t))).fs, RmRf(Previous(t)), [aside] + last);
      var clear := TargetSetAside(ready, source, t);
      RunFirst(ready, aside, last);
      if Previous(t) <= source { assert t <= t + source[|t|..]; }
      CopyRuns(clear, source, t);
    }
  }

  lemma CopyRuns(clear: Node, source: Path, t: Path)
    requires t != [] && source != [] && Get(clear, t) == None && IsDir(clear, Parent(t))
    ensures var o := RunAll(clear, [Cp(source, t)] + ([Chmod(t)] + []));
            && (o.Done? <==> IsFile(clear, source))
            && (o.Done? ==> Get(o.fs, t) == Get(clear, source) && Get(o.fs, Previous(t)) == Get(clear, Previous(t)))
  {
    RunFirst(clear, Cp(source, t), [Chmod(t)] + []);
    if IsFile(clear, source) {
      PreviousUnrelated(t);
      GetPutElsewhere(clear, t, Previous(t), Get(clear, source).value);
      var copied := Put(clear, t, Get(clear, source).value);
      GetPut(clear, t, Get(clear, source).value);
      RunFirst(copied, Chmod(t), []);
    }
  }

  // ----- end to end ------------------------------------------------------------------------------------------------

  /** The settings a deployment reads: its staging directory, which the program itself makes, and the
      two volumes. */
  datatype Settings = Settings(staging: PosixPath, asterisk: Volume, tftp: Volume, asteriskDouble: bool)

  function SettingsOf(staging: PosixPath, asterisk: string, tftp: string): Settings {
    Settings(staging, VolumeAt(staging.parts, "asterisk", asterisk), VolumeAt(staging.parts, "tftp", tftp),
             DoubleRoot(asterisk))
  }

  function Source(s: Settings, bundle: Path): Path {
    SourcePath(s.staging.parts, s.asterisk.active, s.tftp.active, bundle)
  }

  /** `posixpath.normpath(source) == target`: the components and the kind of root. */
  predicate Coincide(s: Settings, marker: PosixPath, bundle: Path) {
    && Source(s, bundle) == marker.parts
    && marker.doubleRoot == (if UnderAsterisk(marker) then s.asteriskDouble else s.staging.doubleRoot)
  }

  /** What `_swap_volumes_command` runs after the swap. */
  function Installs(s: Settings, marker: PosixPath, bundle: Path): seq<Command>
    requires marker.parts != []
  {
    InstallScript(s.staging.parts)
    + (if marker.absolute then InstallMarker(Source(s, bundle), marker.parts, Coincide(s, marker, bundle)) else [])
  }

  function Script(s: Settings, marker: PosixPath, bundle: Path): seq<Command>
    requires marker.parts != []
  {
    SwapCommands(s.asterisk, s.tftp) + Installs(s, marker, bundle)
  }

  /** Each backup stands beside its tree, and no place stands in another. */
  predicate Layout(s: Settings) {
    && s.asterisk.staged == s.staging.parts + ["asterisk"] && s.tftp.staged == s.staging.parts + ["tftp"]
    && Sound(s.asterisk) && Sound(s.tftp) && Apart(s.asterisk, s.tftp)
    && Beside(s.staging.parts, s.asterisk) && Beside(s.staging.parts, s.tftp)
  }

  /** Settings are laid out so if and only if neither active path ends in a slash and no places nest. */
  predicate PlainSettings(staging: PosixPath, asterisk: string, tftp: string) {
    var s := SettingsOf(staging, asterisk, tftp);
    && EndsPlainly(asterisk) && EndsPlainly(tftp)
    && Apart(s.asterisk, s.tftp) && Beside(staging.parts, s.asterisk) && Beside(staging.parts, s.tftp)
  }

  lemma PlainSettingsLayOut(staging: PosixPath, asterisk: string, tftp: string)
    ensures Layout(SettingsOf(staging, asterisk, tftp)) <==> PlainSettings(staging, asterisk, tftp)
  {
    var s := SettingsOf(staging, asterisk, tftp);
    if PlainSettings(staging, asterisk, tftp) { PlainLaysOut(staging, asterisk, tftp); }
    if Layout(s) {
      SoundIsPlain(staging.parts, "asterisk", asterisk);
      SoundIsPlain(staging.parts, "tftp", tftp);
    }
  }

  lemma SoundIsPlain(staging: Path, name: string, active: string)
    requires Sound(VolumeAt(staging, name, active))
    ensures EndsPlainly(active)
  {
    PreviousStands(active);
  }

  lemma PlainLaysOut(staging: PosixPath, asterisk: string, tftp: string)
    requires PlainSettings(staging, asterisk, tftp)
    ensures Layout(SettingsOf(staging, asterisk, tftp))
  {
    var s := SettingsOf(staging, asterisk, tftp);
    UnrelatedBelow(s.asterisk.active, staging.parts, ["asterisk"]);
    UnrelatedBelow(s.asterisk.backup, staging.parts, ["asterisk"]);
    UnrelatedBelow(s.tftp.active, staging.parts, ["tftp"]);
    UnrelatedBelow(s.tftp.backup, staging.parts, ["tftp"]);
    PlainVolumeIsSound(staging.parts, "asterisk", asterisk);
    PlainVolumeIsSound(staging.parts, "tftp", tftp);
  }

  lemma ClearInStaging(s: Settings, name: string, rest: Path)
    requires Layout(s) && name != "asterisk" && name != "tftp"
    ensures Clear(s.asterisk, s.staging.parts + ([name] + rest)) && Clear(s.tftp, s.staging.parts + ([name] + rest))
  {
    var a, t := s.asterisk, s.tftp;
    var q := s.staging.parts + ([name] + rest);
    assert q[|s.staging.parts|] == name && a.staged[|s.staging.parts|] == "asterisk"
        && t.staged[|s.staging.parts|] == "tftp";
    UnrelatedBelow(a.active, s.staging.parts, [name] + rest);
    UnrelatedBelow(a.backup, s.staging.parts, [name] + rest);
    UnrelatedBelow(t.active, s.staging.parts, [name] + rest);
    UnrelatedBelow(t.backup, s.staging.parts, [name] + rest);
  }

  lemma SwapSparesStaging(fs: Node, s: Settings, name: string, rest: Path)
    requires Layout(s) && name != "asterisk" && name != "tftp"
    ensures Get(RunAll(fs, SwapCommands(s.asterisk, s.tftp)).fs, s.staging.parts + ([name] + rest))
              == Get(fs, s.staging.parts + ([name] + rest))
  {
    var a, t := s.asterisk, s.tftp;
    var q := s.staging.parts + ([name] + rest);
    ClearInStaging(s, name, rest);
    CommandsSpare(a, q);
    CommandsSpare(t, q);
    RunAllLeaves(fs, SwapCommands(a, t));
    ScriptSpares(fs, SwapCommands(a, t), q, RunAll(fs, SwapCommands(a, t)).fs);
  }

  /** The staged trees of an uploaded bundle. */
  predicate Staged(fs: Node, s: Settings, bundle: Node) {
    && Get(fs, s.staging.parts) == Some(Uploaded(bundle)) && "asterisk" in Kids(bundle) && "tftp" in Kids(bundle)
  }

  lemma StagedTrees(fs: Node, s: Settings, bundle: Node)
    requires Layout(s) && Staged(fs, s, bundle)
    ensures Waiting(fs, s.asterisk, Get(fs, s.asterisk.active), Kids(bundle)["asterisk"])
    ensures Waiting(fs, s.tftp, Get(fs, s.tftp.active), Kids(bundle)["tftp"])
  {
    GetBelow(fs, s.staging.parts, ["asterisk"]);
    GetBelow(fs, s.staging.parts, ["tftp"]);
    assert ["asterisk"][1..] == [] && ["tftp"][1..] == [];
  }

  /** The swap of staged trees goes through, and puts the bundle's trees in place. */
  lemma StagedSwap(fs: Node, s: Settings, tree: Node)
    requires Layout(s) && Staged(fs, s, tree)
    requires CanMake(fs, s.asterisk.parent) && CanMake(fs, s.tftp.parent)
    ensures var o := RunAll(fs, SwapCommands(s.asterisk, s.tftp));
            && o.Done? && Swapped(o.fs, s.asterisk, Get(fs, s.asterisk.active), Kids(tree)["asterisk"])
            && Swapped(o.fs, s.tftp, Get(fs, s.tftp.active), Kids(tree)["tftp"])
  {
    var a, t := s.asterisk, s.tftp;
    StagedTrees(fs, s, tree);
    SwapCompletes(fs, a, t, Get(fs, a.active), Kids(tree)["asterisk"], Get(fs, t.active), Kids(tree)["tftp"]);
    OneSparesTheOther(a, t);
    ApartBothWays(a, t);
    OneSparesTheOther(t, a);
    SwapRuns(fs, a, t, Get(fs, a.active), Kids(tree)["asterisk"], Get(fs, t.active), Kids(tree)["tftp"]);
  }

  lemma NoScriptsAfterSwap(fs: Node, s: Settings, tree: Node)
    requires Layout(s) && Staged(fs, s, tree)
    ensures Get(RunAll(fs, SwapCommands(s.asterisk, s.tftp)).fs,
                s.staging.parts + ["scripts", "pbx-recording-retention"]) == None
  {
    SwapSparesStaging(fs, s, "scripts", ["pbx-recording-retention"]);
    GetBelow(fs, s.staging.parts, ["scripts", "pbx-recording-retention"]);
    assert ["scripts"] + ["pbx-recording-retention"] == ["scripts", "pbx-recording-retention"];
  }

  /** After the swap the marker's bytes are where the install commands look for them. */
  lemma SourceHolds(fs: Node, s: Settings, marker: PosixPath, tree: Node, n: Node)
    requires Layout(s) && Staged(fs, s, tree) && BundlePath(marker).Some?
    requires CanMake(fs, s.asterisk.parent) && CanMake(fs, s.tftp.parent)
    requires Get(tree, BundlePath(marker).value) == Some(n)
    ensures Get(RunAll(fs, SwapCommands(s.asterisk, s.tftp)).fs, Source(s, BundlePath(marker).value)) == Some(n)
  {
    var bundle := BundlePath(marker).value;
    StagedSwap(fs, s, tree);
    if bundle[0] == "asterisk" {
      var mid := RunAll(fs, SwapCommands(s.asterisk, s.tftp)).fs;
      GetBelow(mid, s.asterisk.active, bundle[1..]);
    } else {
      SwapSparesStaging(fs, s, "active-config", bundle[1..]);
      assert ["active-config"] + bundle[1..] == bundle;
      GetBelow(fs, s.staging.parts, bundle);
    }
  }

  lemma InstallsRun(mid: Node, s: Settings, marker: PosixPath, bundle: Path)
    requires marker.parts != [] && marker.absolute
    requires Get(mid, s.staging.parts + ["scripts", "pbx-recording-retention"]) == None
    ensures RunAll(mid, Installs(s, marker, bundle))
              == RunAll(mid, InstallMarker(Source(s, bundle), marker.parts, Coincide(s, marker, bundle)))
  {
    ScriptsAreNotInstalled(mid, s.staging.parts, EMPTY_DIR);
    RunAllJoins(mid, InstallScript(s.staging.parts),
                InstallMarker(Source(s, bundle), marker.parts, Coincide(s, marker, bundle)));
  }

  /** `o` is a run of the install commands from `mid`, where the source holds `content`: with source and
      target one file it goes through and leaves the content; otherwise it goes through exactly when the
      target's directory can be made and the copy finds a file, which it then leaves at the target, with what
      stood there as its backup, and it finds the content unless the target, or the target's backup, is at or
      above the source. */
  predicate Delivered(mid: Node, o: Outcome, source: Path, target: Path, same: bool, content: seq<int>)
    requires target != []
  {
    if same then o.Done? && Get(o.fs, target) == Some(File(content))
    else
      var found := FoundAtSource(mid, source, target);
      && (o.Done? <==> CanMake(mid, Parent(target)) && found.Some? && found.value.File?)
      && (o.Done? ==> Get(o.fs, target) == found && Get(o.fs, Previous(target)) == Get(mid, target))
      && (!(target <= source) && !(Previous(target) <= source) ==> found == Some(File(content)))
  }

  lemma InstallDelivers(mid: Node, source: Path, target: Path, same: bool, content: seq<int>)
    requires source != [] && target != [] && Get(mid, source) == Some(File(content)) && (same ==> source == target)
    ensures Delivered(mid, RunAll(mid, InstallMarker(source, target, same)), source, target, same, content)
  {
    if same {
      assert InstallMarker(source, target, true)[1..] == [];
    } else {
      InstallRuns(mid, source, target);
    }
  }

  /** For every safe absolute marker path the exported marker's bytes go from the archive, through the
      bundle, the staging directory and the swap, to the configured path. */
  lemma MarkerDelivered(fs: Node, s: Settings, marker: PosixPath, members: seq<Member>, i: nat)
    requires marker.absolute && BundlePath(marker).Some?
    requires i < |members| && members[i].path == BundlePath(marker).value
    requires var x := Extracted(members, BundlePath(marker).value, |members|);
             x.Some? && Layout(s) && Staged(fs, s, x.value)
    requires CanMake(fs, s.asterisk.parent) && CanMake(fs, s.tftp.parent)
    ensures var bundle := BundlePath(marker).value;
            var swapped := RunAll(fs, SwapCommands(s.asterisk, s.tftp));
            && swapped.Done? && Content(members, bundle).Some?
            && Delivered(swapped.fs, RunAll(fs, Script(s, marker, bundle)), Source(s, bundle), marker.parts,
                         Coincide(s, marker, bundle), Content(members, bundle).value)
  {
    var bundle := BundlePath(marker).value;
    var tree := Extracted(members, bundle, |members|).value;
    BundleHolds(members, bundle, |members|, i);
    var content := Content(members, bundle).value;
    SourceHolds(fs, s, marker, tree, File(content));
    StagedSwap(fs, s, tree);
    NoScriptsAfterSwap(fs, s, tree);
    ScriptParts(fs, s, marker, bundle);
    var mid := RunAll(fs, SwapCommands(s.asterisk, s.tftp)).fs;
    InstallsRun(mid, s, marker, bundle);
    SourceIsBelowRoot(s, bundle);
    InstallDelivers(mid, Source(s, bundle), marker.parts, Coincide(s, marker, bundle), content);
  }

  lemma SourceIsBelowRoot(s: Settings, bundle: Path)
    requires |bundle| >= 2
    ensures Source(s, bundle) != []
  {
  }

  lemma ScriptParts(fs: Node, s: Settings, marker: PosixPath, bundle: Path)
    requires marker.parts != []
    ensures var o := RunAll(fs, SwapCommands(s.asterisk, s.tftp));
            RunAll(fs, Script(s, marker, bundle)) == if o.Done? then RunAll(o.fs, Installs(s, marker, bundle)) else o
  {
    RunAllJoins(fs, SwapCommands(s.asterisk, s.tftp), Installs(s, marker, bundle));
  }
}
