/** The check a deployment makes of its three configured paths before it connects, and what it lets
    through: paths that end in a slash, and volumes that overlap. */
module DeploymentPaths {
  import opened Wrappers
  import opened PyStrings
  import opened RemoteFs
  import opened PathText
  import opened SwapVolumes
  import opened SwapOverlaps
  import opened SwapStaging

  // ----- the check -----------------------------------------------------------------------------------------

  /** `_path_is_same_or_child` of normalised texts. A root written as two slashes loses both and allows
      every absolute path. */
  predicate SameOrChild(path: PosixPath, root: PosixPath) {
    root.parts == [] || (path.doubleRoot == root.doubleRoot && root.parts <= path.parts)
  }

  predicate Allowed(path: PosixPath, roots: seq<PosixPath>) {
    roots == [] || exists root :: root in roots && SameOrChild(path, root)
  }

  /** `_validate_remote_deployment_path`: the normalised path, or None where it raises. */
  function Checked(text: string, roots: seq<PosixPath>): Option<PosixPath> {
    var path := ReadPath(Strip(text));
    if !path.absolute || ".." in path.parts || (path.parts == [] && !path.doubleRoot) || !Allowed(path, roots) then None
    else Some(path)
  }

  /** The path part of `_validate_deployment_target`. */
  predicate Accepts(roots: seq<PosixPath>, staging: string, asterisk: string, tftp: string) {
    && Checked(staging, roots).Some? && Checked(asterisk, roots).Some? && Checked(tftp, roots).Some?
    && Checked(asterisk, roots) != Checked(tftp, roots)
    && Checked(staging, roots) !in {Checked(asterisk, roots), Checked(tftp, roots)}
  }

  // ----- a slash at the end --------------------------------------------------------------------------------

  /** The path with a slash behind it, or a slash and a dot. */
  function Ended(text: string, tail: string): string { Strip(text) + tail }

  predicate Idle(tail: string) { tail == "/" || tail == "/." }

  lemma RootsNameNothing()
    ensures Parse("") == [] && Parse("/") == [] && Parse("//") == []
  {
    SlashAddsNothing("");
    SlashAddsNothing("/");
    assert "" + "/" == "/" && "/" + "/" == "//";
    assert Pieces("") == [""];
  }

  lemma SlashAddsNothing(s: string)
    ensures Parse(s + "/") == Parse(s) && LastPiece(s + "/") == ""
  {
    assert (s + "/")[..|s|] == s;
    assert Pieces(s + "/") == Pieces(s) + [""];
    assert (Pieces(s) + [""])[..|Pieces(s)|] == Pieces(s);
  }

  lemma TailAddsNothing(s: string, tail: string)
    requires Idle(tail)
    ensures Parse(s + tail) == Parse(s) && Empty(LastPiece(s + tail))
  {
    SlashAddsNothing(s);
    if tail == "/." {
      PiecesAppend(s + "/", ".");
      assert s + "/." == (s + "/") + ".";
      assert "" + "." == ".";
      ParseSplits(s + "/");
      ParseSplits(s + "/.");
      var before := Pieces(s + "/")[..|Pieces(s + "/")| - 1];
      assert Pieces(s + "/.")[..|Pieces(s + "/.")| - 1] == before;
    }
  }

  /** Behind a path that names something, more text does not change the kind of root. */
  lemma RootStays(s: string, more: string)
    requires Parse(s) != [] && more != "" && more[0] == '/'
    ensures DoubleRoot(s + more) == DoubleRoot(s)
  {
    RootsNameNothing();
    assert s != "";
    if |s| == 1 {
      assert s == [s[0]];
      assert s[0] != '/';
    } else if |s| == 2 {
      assert s == [s[0], s[1]];
      assert !(s[0] == '/' && s[1] == '/');
    }
  }

  lemma TailIsNotSeen(text: string, tail: string, roots: seq<PosixPath>)
    requires Parse(Strip(text)) != [] && Idle(tail)
    ensures Checked(Ended(text, tail), roots) == Checked(text, roots)
  {
    var s := Strip(text);
    RootsNameNothing();
    TailAddsNothing(s, tail);
    RootStays(s, tail);
    assert Trimmed(s + tail);
  }

  /** Over an active tree the volume's commands never go through, whatever the file system. */
  ghost predicate FailsOverATree(v: Volume) {
    forall fs, was, next | Waiting(fs, v, Some(was), next) && was.Dir? :: RunAll(fs, VolumeCommands(v)).Failed?
  }

  /** For all paths the check accepts it accepts them with a slash, or a slash and a dot, behind either active
      path too, and the volume so named can never replace an active tree. */
  lemma SlashPassesAndFails(roots: seq<PosixPath>, staging: string, asterisk: string, tftp: string, tail: string,
                            dir: Path)
    requires Accepts(roots, staging, asterisk, tftp) && Parse(Strip(asterisk)) != [] && Parse(Strip(tftp)) != []
    requires Unrelated(Parse(Strip(asterisk)), dir) && Unrelated(Parse(Strip(tftp)), dir) && Idle(tail)
    ensures Accepts(roots, staging, Ended(asterisk, tail), tftp)
    ensures Accepts(roots, staging, asterisk, Ended(tftp, tail))
    ensures FailsOverATree(VolumeAt(dir, "asterisk", Ended(asterisk, tail)))
    ensures FailsOverATree(VolumeAt(dir, "tftp", Ended(tftp, tail)))
  {
    TailIsNotSeen(asterisk, tail, roots);
    TailIsNotSeen(tftp, tail, roots);
    EndedFails(dir, "asterisk", asterisk, tail);
    EndedFails(dir, "tftp", tftp, tail);
  }

  lemma EndedFails(dir: Path, name: string, text: string, tail: string)
    requires Parse(Strip(text)) != [] && Unrelated(Parse(Strip(text)), dir) && Idle(tail)
    ensures FailsOverATree(VolumeAt(dir, name, Ended(text, tail)))
  {
    var ended := Ended(text, tail);
    var v := VolumeAt(dir, name, ended);
    TailAddsNothing(Strip(text), tail);
    PreviousStands(ended);
    DirNameStands(ended);
    UnrelatedBelow(v.active, dir, [name]);
    forall fs, was, next | Waiting(fs, v, Some(was), next) && was.Dir? ensures RunAll(fs, VolumeCommands(v)).Failed? {
      NestedBackupFails(fs, v, was, next, LastPiece(ended) + ".previous");
    }
  }

  // ----- volumes that overlap --------------------------------------------------------------------------------

  /** A name a settings path may end in. */
  predicate Plain(name: string) { Name(name) && name != ".." && Trimmed(name) }

  function Under(text: string, name: string): string { text + "/" + name }

  lemma ChildIsChecked(text: string, name: string, roots: seq<PosixPath>)
    requires Trimmed(text) && Parse(text) != [] && Checked(text, roots).Some? && Plain(name)
    ensures Trimmed(Under(text, name)) && Parse(Under(text, name)) == Parse(text) + [name]
    ensures Checked(Under(text, name), roots) == Some(ReadPath(text).(parts := Parse(text) + [name]))
  {
    ChildIsRead(text, name);
    StaysAllowed(ReadPath(text), name, roots);
    assert ".." !in Parse(text) + [name];
  }

  lemma ChildIsRead(text: string, name: string)
    requires Trimmed(text) && Parse(text) != [] && Plain(name)
    ensures Trimmed(Under(text, name))
    ensures ReadPath(Under(text, name)) == ReadPath(text).(parts := Parse(text) + [name])
  {
    RootsNameNothing();
    ParseChild(text, name);
    RootStays(text, "/" + name);
    assert text + ("/" + name) == Under(text, name);
  }

  lemma StaysAllowed(path: PosixPath, name: string, roots: seq<PosixPath>)
    requires Allowed(path, roots)
    ensures Allowed(path.(parts := path.parts + [name]), roots)
  {
    if roots != [] {
      var root :| root in roots && SameOrChild(path, root);
      assert SameOrChild(path.(parts := path.parts + [name]), root);
    }
  }

  lemma PreviousIsPlain(name: string)
    requires Plain(name)
    ensures Plain(name + ".previous")
  {
    PreviousIsAName(name);
    assert |name + ".previous"| > 2;
  }

  /** Where the volume of a path with a name at its end lies. */
  lemma ChildVolume(dir: Path, stagedAs: string, text: string, name: string)
    requires Name(name)
    ensures EndsPlainly(Under(text, name))
    ensures var v := VolumeAt(dir, stagedAs, Under(text, name));
            && v.active == Parse(text) + [name] && v.parent == Parse(text)
            && v.backup == Parse(text) + [name + ".previous"]
  {
    var s := text + "/";
    assert s[..|s| - 1] == text;
    PiecesAppend(s, name);
    assert LastPiece(s) == "" && "" + name == name;
    assert LastPiece(s + name) == name;
    ParseChild(text, name);
    PreviousStands(Under(text, name));
    DirNameStands(Under(text, name));
    var v := VolumeAt(dir, stagedAs, Under(text, name));
    assert Before(Under(text, name)) == v.active[..|v.active| - 1] == Parse(text);
  }

  /** One active path at or in a place of the other volume. */
  predicate Overlapping(d: string, x: string, y: string, one: string, other: string) {
    && one == Under(d, x)
    && (other == Under(d, x + ".previous") || other == Under(one, y) || other == Under(Under(d, x + ".previous"), y))
  }

  lemma DifferAt(p: Path, q: Path, k: nat)
    requires k < |p| && k < |q| && p[k] != q[k]
    ensures Unrelated(p, q) && Unrelated(q, p)
  {
  }

  /** At the component behind `base`, the volume's places have other names than the staging directory. */
  predicate BesideAt(v: Volume, dir: Path, k: nat) {
    |dir| > k && |v.active| > k && |v.backup| > k && v.active[k] != dir[k] && v.backup[k] != dir[k]
  }

  lemma BesideAtMeans(v: Volume, dir: Path, k: nat, name: string)
    requires BesideAt(v, dir, k)
    ensures Unrelated(dir + [name], v.active) && Unrelated(dir + [name], v.backup)
    ensures Unrelated(v.active, dir + [name]) && Unrelated(v.backup, dir + [name])
  {
    DifferAt(dir + [name], v.active, k);
    DifferAt(dir + [name], v.backup, k);
  }

  /** The staging directory made for a run, under the configured one. */
  function RunDir(staging: string, slug: string, run: string): Path { Parse(staging) + [slug, run] }

  lemma OverlapPasses(roots: seq<PosixPath>, d: string, x: string, y: string, one: string, other: string)
    requires Trimmed(d) && Parse(d) != [] && Checked(d, roots).Some? && Plain(x) && Plain(y)
    requires Overlapping(d, x, y, one, other)
    ensures Accepts(roots, d, one, other) && Accepts(roots, d, other, one)
  {
    var previous := x + ".previous";
    assert |x| < |previous|;
    PreviousIsPlain(x);
    ChildIsChecked(d, x, roots);
    ChildIsChecked(d, previous, roots);
    if other == Under(d, previous) {
      LastDiffers(Parse(d), x, previous);
    } else if other == Under(one, y) {
      ChildIsChecked(one, y, roots);
    } else {
      ChildIsChecked(Under(d, previous), y, roots);
    }
  }

  lemma LastDiffers(p: Path, x: string, z: string)
    requires x != z
    ensures p + [x] != p + [z]
  {
    assert (p + [x])[|p|] != (p + [z])[|p|];
  }

  /** Two names in an accepted directory are accepted as the active paths, a slash behind the first or not. */
  lemma SiblingsPass(roots: seq<PosixPath>, d: string, x: string, z: string)
    requires Trimmed(d) && Parse(d) != [] && Checked(d, roots).Some? && Plain(x) && Plain(z) && x != z
    ensures Accepts(roots, d, Under(d, x), Under(d, z)) && Accepts(roots, d, Ended(Under(d, x), "/"), Under(d, z))
  {
    ChildIsChecked(d, x, roots);
    ChildIsChecked(d, z, roots);
    LastDiffers(Parse(d), x, z);
    TailIsNotSeen(Under(d, x), "/", roots);
  }

  /** The places of the second of two such paths. */
  lemma OtherPlaces(dir: Path, name: string, d: string, x: string, y: string, one: string, other: string)
    requires Plain(x) && Plain(y) && Overlapping(d, x, y, one, other)
    ensures EndsPlainly(other)
    ensures var w := VolumeAt(dir, name, other); var k := |Parse(d)|;
            && |w.active| > k && |w.backup| > k
            && w.active[k] in {x, x + ".previous"} && w.backup[k] in {x, x + ".previous", x + ".previous.previous"}
            && (Parse(d) + [x] <= w.active || Parse(d) + [x + ".previous"] <= w.active)
  {
    PreviousIsPlain(x);
    ParseChild(d, x);
    ParseChild(d, x + ".previous");
    if other == Under(d, x + ".previous") {
      ChildVolume(dir, name, d, x + ".previous");
      assert x + ".previous" + ".previous" == x + ".previous.previous";
    } else if other == Under(one, y) {
      ChildVolume(dir, name, one, y);
    } else {
      ChildVolume(dir, name, Under(d, x + ".previous"), y);
    }
  }

  lemma OverlapPlaces(dir: Path, first: string, second: string, d: string, x: string, y: string, one: string,
                      other: string)
    requires Plain(x) && Plain(y) && Overlapping(d, x, y, one, other) && first != second
    requires |dir| > |Parse(d)| && dir[|Parse(d)|] !in {x, x + ".previous", x + ".previous.previous"}
    ensures var v := VolumeAt(dir, first, one); var w := VolumeAt(dir, second, other);
            Sound(v) && Sound(w) && StagedApart(v, w) && !Apart(v, w) && !Apart(w, v)
  {
    var v := VolumeAt(dir, first, one);
    var w := VolumeAt(dir, second, other);
    ChildVolume(dir, first, d, x);
    OtherPlaces(dir, second, d, x, y, one, other);
    BesideAtMeans(v, dir, |Parse(d)|, first);
    BesideAtMeans(v, dir, |Parse(d)|, second);
    BesideAtMeans(w, dir, |Parse(d)|, first);
    BesideAtMeans(w, dir, |Parse(d)|, second);
    DifferAt(dir + [first], dir + [second], |dir|);
    PlainVolumeIsSound(dir, first, one);
    PlainVolumeIsSound(dir, second, other);
    if Apart(w, v) { ApartBothWays(w, v); }
  }

  /** For every accepted directory, an active path in it and another that is the first's backup, or below
      the first or its backup, are accepted together, whichever is whose; and there are file systems where
      the completed swap of the two loses a tree. */
  lemma OverlapPassesAndLoses(roots: seq<PosixPath>, d: string, x: string, y: string, slug: string, run: string,
                              asterisk: string, tftp: string)
    requires Trimmed(d) && Parse(d) != [] && Checked(d, roots).Some? && Plain(x) && Plain(y)
    requires slug !in {x, x + ".previous", x + ".previous.previous"}
    requires Overlapping(d, x, y, asterisk, tftp) || Overlapping(d, x, y, tftp, asterisk)
    ensures Accepts(roots, d, asterisk, tftp)
    ensures var dir := RunDir(d, slug, run);
            !KeepsBoth(VolumeAt(dir, "asterisk", asterisk), VolumeAt(dir, "tftp", tftp))
  {
    var dir := RunDir(d, slug, run);
    if Overlapping(d, x, y, asterisk, tftp) {
      OverlapPasses(roots, d, x, y, asterisk, tftp);
      OverlapPlaces(dir, "asterisk", "tftp", d, x, y, asterisk, tftp);
    } else {
      OverlapPasses(roots, d, x, y, tftp, asterisk);
      OverlapPlaces(dir, "tftp", "asterisk", d, x, y, tftp, asterisk);
    }
    OverlapLoses(VolumeAt(dir, "asterisk", asterisk), VolumeAt(dir, "tftp", tftp));
  }

  // ----- staging inside an active path ---------------------------------------------------------------------------

  lemma StagingInsidePasses(roots: seq<PosixPath>, active: string, other: string, x: string)
    requires Trimmed(active) && Parse(active) != [] && Checked(active, roots).Some? && Plain(x)
    requires Checked(other, roots).Some?
    requires Checked(other, roots) !in {Checked(active, roots), Checked(Under(active, x), roots)}
    ensures Accepts(roots, Under(active, x), active, other) && Accepts(roots, Under(active, x), other, active)
  {
    ChildIsChecked(active, x, roots);
    assert |Parse(active) + [x]| > |Parse(active)|;
  }

  /** For every accepted active path a staging path below it is accepted, as long as it is not the other active
      path; every attempt then fails over an active tree, and the second one in a row deletes the old tree. */
  lemma StagingInsidePassesAndLoses(roots: seq<PosixPath>, active: string, other: string, x: string, name: string,
                                    slug: string, run: string, again: string, fs: Node, was: Node, bundle: Node)
    requires Trimmed(active) && EndsPlainly(active) && Checked(active, roots).Some? && Plain(x)
    requires Checked(other, roots).Some?
    requires Checked(other, roots) !in {Checked(active, roots), Checked(Under(active, x), roots)}
    requires Get(fs, Parse(active)) == Some(was)
    ensures Accepts(roots, Under(active, x), active, other) && Accepts(roots, Under(active, x), other, active)
    ensures var dir, next := RunDir(Under(active, x), slug, run), RunDir(Under(active, x), slug, again);
            var v, w := VolumeAt(dir, name, active), VolumeAt(next, name, active);
            var first := RunAll(fs, VolumeCommands(v));
            var prepared := RunAll(first.fs, PrepareStaging(next));
            var second := RunAll(Put(prepared.fs, next, bundle), VolumeCommands(w));
            var rest := [x, slug, again];
            && first.Failed? && SetAside(first.fs, v, was) && prepared.Done? && second.Failed?
            && SetAside(second.fs, v, Put(MakeDirs(EMPTY_DIR, rest), rest, bundle))
  {
    PreviousStands(active);
    StagingInsidePasses(roots, active, other, x);
    RunDirInside(active, x, slug, run);
    RunDirInside(active, x, slug, again);
    var v := VolumeAt(RunDir(Under(active, x), slug, run), name, active);
    PlainBackupIsBeside(RunDir(Under(active, x), slug, run), name, active);
    SecondAttemptDeletesTheOldTree(fs, v, was, name, [x, slug, run], [x, slug, again], bundle);
  }

  lemma RunDirInside(active: string, x: string, slug: string, run: string)
    requires Plain(x)
    ensures RunDir(Under(active, x), slug, run) == Parse(active) + [x, slug, run]
  {
    ParseChild(active, x);
  }

  // ----- the default roots -------------------------------------------------------------------------------------

  function Root(parts: Path): PosixPath { PosixPath(true, false, parts) }

  const DEFAULT_ROOTS: seq<PosixPath> := [
    Root(["srv", "pbx"]), Root(["opt", "pbx"]), Root(["var", "lib", "pbx"]), Root(["etc", "asterisk"]),
    Root(["srv", "tftp"]), Root(["var", "lib", "tftpboot"]), Root(["tftpboot"])]

  /** With the roots a deployment has by default: a slash at the end, and a live tree named like a backup. */
  lemma DefaultRootsPass()
    ensures Accepts(DEFAULT_ROOTS, "/srv/pbx", "/srv/pbx/asterisk/", "/srv/pbx/tftp")
    ensures Accepts(DEFAULT_ROOTS, "/srv/pbx", "/srv/pbx/x", "/srv/pbx/x.previous")
  {
    DefaultRootIsChecked();
    ExampleTexts();
    SiblingsPass(DEFAULT_ROOTS, "/srv/pbx", "asterisk", "tftp");
    SiblingsPass(DEFAULT_ROOTS, "/srv/pbx", "x", "x.previous");
  }

  lemma ExampleTexts()
    ensures Plain("asterisk") && Plain("tftp") && Plain("x") && Plain("x.previous")
    ensures "asterisk" != "tftp" && "x" != "x.previous"
    ensures Under("/srv/pbx", "tftp") == "/srv/pbx/tftp" && Under("/srv/pbx", "x") == "/srv/pbx/x"
    ensures Under("/srv/pbx", "x.previous") == "/srv/pbx/x.previous"
    ensures Ended(Under("/srv/pbx", "asterisk"), "/") == "/srv/pbx/asterisk/"
  {
    assert |"x"| != |"x.previous"| && |"asterisk"| != |"tftp"|;
    assert Under("/srv/pbx", "asterisk") == "/srv/pbx/asterisk";
  }

  lemma DefaultRootIsChecked()
    ensures Trimmed("/srv/pbx") && Parse("/srv/pbx") == ["srv", "pbx"]
    ensures Checked("/srv/pbx", DEFAULT_ROOTS) == Some(Root(["srv", "pbx"]))
  {
    RootsNameNothing();
    ParseChild("", "srv");
    assert "" + "/" + "srv" == "/srv";
    ParseChild("/srv", "pbx");
    assert "/srv" + "/" + "pbx" == "/srv/pbx";
    assert [] + ["srv"] == ["srv"] && ["srv"] + ["pbx"] == ["srv", "pbx"];
    assert Root(["srv", "pbx"]) in DEFAULT_ROOTS && SameOrChild(Root(["srv", "pbx"]), Root(["srv", "pbx"]));
  }

  // ----- what is refused -------------------------------------------------------------------------------------------

  /** No path with two dots between slashes, or at its end, passes. */
  lemma ParentIsRefused(text: string, a: string, b: string, roots: seq<PosixPath>)
    requires Trimmed(text) && (text == a + "/" + ("../" + b) || text == a + "/" + "..")
    ensures Checked(text, roots) == None
  {
    DotsAreAName();
    ParseJoins("..", b);
    assert ".." + "/" + b == "../" + b;
    ParseJoins(a, "../" + b);
    ParseJoins(a, "..");
    assert ".." in Parse(text);
  }

  lemma DotsAreAName()
    ensures Parse("..") == [".."]
  {
    PiecesAppend("", "..");
    assert "" + ".." == ".." && Pieces("") == [""];
    assert [".."][..0] == [];
  }

  /** What does not begin with a slash is refused; so is the root of the file system; and so is, if roots are
      configured, everything that is neither one of them nor below one. */
  lemma OutsideIsRefused(text: string, roots: seq<PosixPath>)
    ensures Strip(text) == "" || Strip(text)[0] != '/' ==> Checked(text, roots) == None
    ensures Strip(text) in {"/", "/.", "///"} ==> Checked(text, roots) == None
    ensures roots != [] && (forall r | r in roots :: r.parts != [] && !(r.parts <= Parse(Strip(text)))) ==>
              Checked(text, roots) == None
  {
    RootsNameNothing();
    SlashAddsNothing("//");
    assert "//" + "/" == "///";
    TailAddsNothing("", "/.");
    assert "" + "/." == "/.";
  }

  /** Two slashes in front are a root of their own: no root with one slash allows what stands behind them, except
      the root that is only slashes, which allows every absolute path. */
  lemma DoubleSlashIsElsewhere(path: string, roots: seq<PosixPath>)
    requires Trimmed("//" + path) && path != "" && path[0] != '/'
    ensures roots != [] && (forall r | r in roots :: r.parts != [] && !r.doubleRoot) ==>
              Checked("//" + path, roots) == None
    ensures Root([]) in roots && ".." !in Parse("//" + path) ==> Checked("//" + path, roots).Some?
  {
    StripsToItself("//" + path);
  }

  /** Two active paths that differ in what the file system ignores are refused, and so is a staging path that
      is an active one. */
  lemma SamePathIsRefused(roots: seq<PosixPath>, text: string, other: string, tail: string)
    requires Parse(Strip(text)) != [] && Idle(tail)
    ensures !Accepts(roots, other, text, Ended(text, tail)) && !Accepts(roots, other, Ended(text, tail), text)
    ensures !Accepts(roots, Ended(text, tail), text, other) && !Accepts(roots, Ended(text, tail), other, text)
  {
    TailIsNotSeen(text, tail, roots);
  }
}
