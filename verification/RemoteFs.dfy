/** The remote host's files as a tree, the shell commands a deployment runs on them, and what a script
    of such commands may leave behind when it is stopped at any moment. */
module RemoteFs {
  import opened Wrappers

  /** Components from the root. */
  type Path = seq<string>

  datatype Node = File(content: seq<int>) | Dir(kids: map<string, Node>)

  const EMPTY_DIR := Dir(map[])

  function Kids(node: Node): map<string, Node> {
    if node.Dir? then node.kids else map[]
  }

  function Get(node: Node, path: Path): Option<Node> {
    if path == [] then Some(node)
    else if path[0] in Kids(node) then Get(Kids(node)[path[0]], path[1..])
    else None
  }

  function Kid(node: Node, name: string): Node {
    if name in Kids(node) then Kids(node)[name] else EMPTY_DIR
  }

  function Put(node: Node, path: Path, node': Node): Node
    decreases |path|
  {
    if path == [] then node'
    else Dir(Kids(node)[path[0] := Put(Kid(node, path[0]), path[1..], node')])
  }

  function Delete(node: Node, path: Path): Node {
    if path == [] || path[0] !in Kids(node) then node
    else if |path| == 1 then Dir(Kids(node) - {path[0]})
    else Dir(Kids(node)[path[0] := Delete(Kids(node)[path[0]], path[1..])])
  }

  /** The directories on the way to `path`, and `path` itself, created where they are missing. */
  function MakeDirs(node: Node, path: Path): Node
    decreases |path|
  {
    if path == [] then node
    else Dir(Kids(node)[path[0] := MakeDirs(Kid(node, path[0]), path[1..])])
  }

  /** No file stands on the way. */
  predicate CanMake(node: Node, path: Path)
    decreases |path|
  {
    node.Dir? && (path == [] || CanMake(Kid(node, path[0]), path[1..]))
  }

  predicate Unrelated(p: Path, q: Path) { !(p <= q) && !(q <= p) }

  predicate Exists(fs: Node, p: Path) { Get(fs, p).Some? }

  predicate IsDir(fs: Node, p: Path) { Get(fs, p).Some? && Get(fs, p).value.Dir? }

  predicate IsFile(fs: Node, p: Path) { Get(fs, p).Some? && Get(fs, p).value.File? }

  // ----- laws ----------------------------------------------------------------------------------------------

  lemma {:induction false} GetPut(node: Node, p: Path, n: Node)
    ensures Get(Put(node, p, n), p) == Some(n)
    decreases |p|
  {
    if p != [] { GetPut(Kid(node, p[0]), p[1..], n); }
  }

  lemma UnrelatedTails(p: Path, q: Path)
    requires Unrelated(p, q)
    ensures p != [] && q != [] && (p[0] == q[0] ==> Unrelated(p[1..], q[1..]))
  {
    if p[0] == q[0] {
      assert p == [p[0]] + p[1..] && q == [q[0]] + q[1..];
    }
  }

  lemma {:induction false} GetPutElsewhere(node: Node, p: Path, q: Path, n: Node)
    requires Unrelated(p, q)
    ensures Get(Put(node, p, n), q) == Get(node, q)
    decreases |p|
  {
    UnrelatedTails(p, q);
    if p[0] == q[0] {
      GetPutElsewhere(Kid(node, p[0]), p[1..], q[1..], n);
      if p[0] !in Kids(node) { EmptyHasNothing(q[1..]); }
    }
  }

  lemma EmptyHasNothing(q: Path)
    ensures q != [] ==> Get(EMPTY_DIR, q) == None
  {
  }

  lemma {:induction false} GetDelete(node: Node, p: Path)
    requires p != []
    ensures Get(Delete(node, p), p) == None
  {
    if p[0] in Kids(node) && |p| > 1 { GetDelete(Kids(node)[p[0]], p[1..]); }
  }

  lemma {:induction false} GetDeleteElsewhere(node: Node, p: Path, q: Path)
    requires Unrelated(p, q)
    ensures Get(Delete(node, p), q) == Get(node, q)
    decreases |p|
  {
    UnrelatedTails(p, q);
    if p[0] == q[0] && p[0] in Kids(node) {
      if |p| > 1 { GetDeleteElsewhere(Kids(node)[p[0]], p[1..], q[1..]); }
    }
  }

  lemma {:induction false} GetMakeDirs(node: Node, p: Path, q: Path)
    requires !(q <= p)
    ensures Get(MakeDirs(node, p), q) == Get(node, q)
    decreases |p|
  {
    if p != [] && p[0] == q[0] {
      assert !(q[1..] <= p[1..]) by { assert p == [p[0]] + p[1..] && q == [q[0]] + q[1..]; }
      GetMakeDirs(Kid(node, p[0]), p[1..], q[1..]);
      if p[0] !in Kids(node) { EmptyHasNothing(q[1..]); }
    }
  }

  lemma {:induction false} MadeDirIsThere(node: Node, p: Path)
    requires CanMake(node, p)
    ensures IsDir(MakeDirs(node, p), p)
    decreases |p|
  {
    if p != [] { MadeDirIsThere(Kid(node, p[0]), p[1..]); }
  }

  /** A path in two parts: the second is looked up below the first. */
  lemma {:induction false} GetBelow(node: Node, p: Path, q: Path)
    ensures Get(node, p + q) == if Get(node, p).Some? then Get(Get(node, p).value, q) else None
    decreases |p|
  {
    if p == [] {
      assert p + q == q;
    } else {
      assert (p + q)[1..] == p[1..] + q;
      if p[0] in Kids(node) { GetBelow(Kids(node)[p[0]], p[1..], q); }
    }
  }

  lemma PrefixIsBelow(p: Path, q: Path)
    requires p <= q
    ensures q == p + q[|p|..]
  {
  }

  lemma {:induction false} FileBlocks(fs: Node, p: Path, q: Path)
    requires IsFile(fs, p) && p <= q
    ensures !CanMake(fs, q)
    decreases |p|
  {
    if p != [] {
      assert p[1..] <= q[1..];
      FileBlocks(Kids(fs)[p[0]], p[1..], q[1..]);
    }
  }

  lemma {:induction false} AboveIsDir(fs: Node, p: Path, q: Path)
    requires Exists(fs, q) && p < q
    ensures IsDir(fs, p)
    decreases |p|
  {
    if p != [] {
      assert p[1..] < q[1..];
      AboveIsDir(Kids(fs)[p[0]], p[1..], q[1..]);
    }
  }

  lemma MissingBelow(fs: Node, p: Path, q: Path)
    requires !Exists(fs, p)
    ensures p <= q ==> Get(fs, q) == None
  {
    if p <= q { PrefixIsBelow(p, q); GetBelow(fs, p, q[|p|..]); }
  }

  lemma {:induction false} DirCanBeMade(fs: Node, p: Path)
    requires IsDir(fs, p)
    ensures CanMake(fs, p)
    decreases |p|
  {
    if p != [] { DirCanBeMade(Kids(fs)[p[0]], p[1..]); }
  }

  lemma {:induction false} CanMakeBelow(fs: Node, p: Path, q: Path)
    requires Exists(fs, p)
    ensures CanMake(fs, p + q) <==> CanMake(Get(fs, p).value, q)
    decreases |p|
  {
    if p == [] {
      assert p + q == q;
    } else {
      assert (p + q)[1..] == p[1..] + q;
      CanMakeBelow(Kids(fs)[p[0]], p[1..], q);
    }
  }

  lemma {:induction false} MakeDirsBelow(fs: Node, p: Path, r: Path)
    ensures Get(MakeDirs(fs, p + r), p) == Some(MakeDirs(if Exists(fs, p) then Get(fs, p).value else EMPTY_DIR, r))
    decreases |p|
  {
    if p == [] {
      assert p + r == r;
    } else {
      assert (p + r)[1..] == p[1..] + r;
      MakeDirsBelow(Kid(fs, p[0]), p[1..], r);
      if p[0] !in Kids(fs) { EmptyHasNothing(p[1..]); }
    }
  }

  lemma {:induction false} PutBelow(fs: Node, p: Path, r: Path, n: Node)
    ensures Get(Put(fs, p + r, n), p) == Some(Put(if Exists(fs, p) then Get(fs, p).value else EMPTY_DIR, r, n))
    decreases |p|
  {
    if p == [] {
      assert p + r == r;
    } else {
      assert (p + r)[1..] == p[1..] + r;
      PutBelow(Kid(fs, p[0]), p[1..], r, n);
      if p[0] !in Kids(fs) { EmptyHasNothing(p[1..]); }
    }
  }

  // ----- commands ----------------------------------------------------------------------------------------------

  datatype Command =
    | MkdirP(path: Path)
    | RmRf(path: Path)
    | Mv(src: Path, dst: Path)
    | Cp(src: Path, dst: Path)
    | Chmod(path: Path)
    | WhenExists(test: Path, body: Command)   // if [ -e test ]; then ...; fi
    | WhenFile(test: Path, body: Command)     // if [ -f test ]; then ...; fi

  datatype Outcome = Done(fs: Node) | Failed(fs: Node)

  function Parent(p: Path): Path
    requires p != []
  {
    p[..|p| - 1]
  }

  function Last(p: Path): string
    requires p != []
  {
    p[|p| - 1]
  }

  /** Where `mv src dst` puts it: into `dst` when that is a directory. */
  function MvTarget(fs: Node, src: Path, dst: Path): Path
    requires src != []
  {
    if IsDir(fs, dst) then dst + [Last(src)] else dst
  }

  /** `mv` renames: its source must exist, its target must not be below the source nor a directory with
      anything in it, nor of the other kind, and must have a directory to stand in. */
  predicate CanMove(fs: Node, src: Path, target: Path) {
    && Exists(fs, src) && !(src <= target) && target != [] && IsDir(fs, Parent(target))
    && (Exists(fs, target) ==>
          if IsFile(fs, src) then IsFile(fs, target) else Get(fs, target) == Some(EMPTY_DIR))
  }

  /** Where `cp src dst` puts it. */
  function CpTarget(fs: Node, src: Path, dst: Path): Path
    requires src != []
  {
    if IsDir(fs, dst) then dst + [Last(src)] else dst
  }

  predicate CanCopy(fs: Node, src: Path, target: Path) {
    && IsFile(fs, src) && src != target && target != [] && IsDir(fs, Parent(target)) && !IsDir(fs, target)
  }

  /** A command that is left to finish. */
  function Exec(fs: Node, c: Command): Outcome {
    match c
    case MkdirP(p) => if CanMake(fs, p) then Done(MakeDirs(fs, p)) else Failed(fs)
    case RmRf(p) => if p == [] then Failed(fs) else Done(Delete(fs, p))
    case Mv(src, dst) =>
      if src != [] && CanMove(fs, src, MvTarget(fs, src, dst))
      then Done(Put(Delete(fs, src), MvTarget(fs, src, dst), Get(fs, src).value)) else Failed(fs)
    case Cp(src, dst) =>
      if src != [] && CanCopy(fs, src, CpTarget(fs, src, dst))
      then Done(Put(fs, CpTarget(fs, src, dst), Get(fs, src).value)) else Failed(fs)
    case Chmod(p) => if Exists(fs, p) then Done(fs) else Failed(fs)
    case WhenExists(p, body) => if Exists(fs, p) then Exec(fs, body) else Done(fs)
    case WhenFile(p, body) => if IsFile(fs, p) then Exec(fs, body) else Done(fs)
  }

  /** What a command that is stopped, or fails, at any moment may leave: `mkdir -p` some of the directories,
      `rm -rf` anything at all of what stood at its path, `cp` any part of a file; `mv` renames or does not. */
  ghost predicate MayLeave(fs: Node, c: Command, left: Node) {
    left == fs || left == Exec(fs, c).fs
    || match c
       case MkdirP(p) => exists k | 0 <= k <= |p| :: CanMake(fs, p[..k]) && left == MakeDirs(fs, p[..k])
       case RmRf(p) => p != [] && Exists(fs, p) && exists n :: left == Put(fs, p, n)
       case Mv(_, _) => false
       case Cp(src, dst) => src != [] && CanCopy(fs, src, CpTarget(fs, src, dst))
                            && exists n :: left == Put(fs, CpTarget(fs, src, dst), File(n))
       case Chmod(_) => false
       case WhenExists(p, body) => Exists(fs, p) && MayLeave(fs, body, left)
       case WhenFile(p, body) => IsFile(fs, p) && MayLeave(fs, body, left)
  }

  /** The whole script under `set -e`. */
  function RunAll(fs: Node, script: seq<Command>): Outcome
    decreases |script|
  {
    if script == [] then Done(fs)
    else
      var first := Exec(fs, script[0]);
      if first.Failed? then first else RunAll(first.fs, script[1..])
  }

  /** The script may be stopped, or fail, before, in, or after any of its commands, with `left` to show. */
  ghost predicate Leaves(fs: Node, script: seq<Command>, left: Node)
    decreases |script|
  {
    left == fs
    || (script != [] && (MayLeave(fs, script[0], left)
                         || (Exec(fs, script[0]).Done? && Leaves(Exec(fs, script[0]).fs, script[1..], left))))
  }

  /** A full run, and a failing one, are among the things a script may leave. */
  lemma {:induction false} RunAllLeaves(fs: Node, script: seq<Command>)
    ensures Leaves(fs, script, RunAll(fs, script).fs)
    decreases |script|
  {
    if script != [] && Exec(fs, script[0]).Done? { RunAllLeaves(Exec(fs, script[0]).fs, script[1..]); }
  }

  lemma {:induction false} RunAllJoins(fs: Node, a: seq<Command>, b: seq<Command>)
    ensures RunAll(fs, a + b) == if RunAll(fs, a).Done? then RunAll(RunAll(fs, a).fs, b) else RunAll(fs, a)
    decreases |a|
  {
    if a == [] {
      assert a + b == b;
    } else {
      assert (a + b)[1..] == a[1..] + b;
      if Exec(fs, a[0]).Done? { RunAllJoins(Exec(fs, a[0]).fs, a[1..], b); }
    }
  }

  lemma {:induction false} LeavesJoins(fs: Node, a: seq<Command>, b: seq<Command>, left: Node)
    requires Leaves(fs, a + b, left)
    ensures Leaves(fs, a, left) || (RunAll(fs, a).Done? && Leaves(RunAll(fs, a).fs, b, left))
    decreases |a|
  {
    if a == [] {
      assert a + b == b;
    } else {
      assert (a + b)[1..] == a[1..] + b;
      if left != fs && !MayLeave(fs, a[0], left) { LeavesJoins(Exec(fs, a[0]).fs, a[1..], b, left); }
    }
  }

  // ----- what a command does not touch -----------------------------------------------------------------------

  /** Nothing at, above or below `q` is written by this command. */
  predicate Spares(c: Command, q: Path) {
    match c
    case MkdirP(p) => !(q <= p)
    case RmRf(p) => Unrelated(p, q)
    case Mv(src, dst) => Unrelated(src, q) && Unrelated(dst, q)
    case Cp(_, dst) => Unrelated(dst, q)
    case Chmod(_) => true
    case WhenExists(_, body) => Spares(body, q)
    case WhenFile(_, body) => Spares(body, q)
  }

  lemma BelowUnrelated(p: Path, q: Path, name: string)
    requires Unrelated(p, q)
    ensures Unrelated(p + [name], q)
  {
    assert |p| < |p + [name]| && (p + [name])[..|p|] == p;
  }

  lemma {:induction false} SparedByExec(fs: Node, c: Command, q: Path)
    requires Spares(c, q)
    ensures Get(Exec(fs, c).fs, q) == Get(fs, q)
    decreases c
  {
    match c
    case MkdirP(p) => GetMakeDirs(fs, p, q);
    case RmRf(p) => GetDeleteElsewhere(fs, p, q);
    case Mv(src, dst) =>
      if src != [] && CanMove(fs, src, MvTarget(fs, src, dst)) {
        BelowUnrelated(dst, q, Last(src));
        GetDeleteElsewhere(fs, src, q);
        GetPutElsewhere(Delete(fs, src), MvTarget(fs, src, dst), q, Get(fs, src).value);
      }
    case Cp(src, dst) =>
      if src != [] && CanCopy(fs, src, CpTarget(fs, src, dst)) {
        BelowUnrelated(dst, q, Last(src));
        GetPutElsewhere(fs, CpTarget(fs, src, dst), q, Get(fs, src).value);
      }
    case Chmod(_) =>
    case WhenExists(p, body) => SparedByExec(fs, body, q);
    case WhenFile(p, body) => SparedByExec(fs, body, q);
  }

  lemma {:induction false} Spared(fs: Node, c: Command, q: Path, left: Node)
    requires Spares(c, q) && MayLeave(fs, c, left)
    ensures Get(left, q) == Get(fs, q)
    decreases c
  {
    SparedByExec(fs, c, q);
    if left != fs && left != Exec(fs, c).fs {
      match c
      case MkdirP(p) =>
        var k :| 0 <= k <= |p| && left == MakeDirs(fs, p[..k]);
        GetMakeDirs(fs, p[..k], q);
      case RmRf(p) =>
        var n :| left == Put(fs, p, n);
        GetPutElsewhere(fs, p, q, n);
      case Cp(src, dst) =>
        var n :| left == Put(fs, CpTarget(fs, src, dst), File(n));
        BelowUnrelated(dst, q, Last(src));
        GetPutElsewhere(fs, CpTarget(fs, src, dst), q, File(n));
      case WhenExists(p, body) => Spared(fs, body, q, left);
      case WhenFile(p, body) => Spared(fs, body, q, left);
      case Mv(_, _) =>
      case Chmod(_) =>
    }
  }

  predicate AllSpare(script: seq<Command>, q: Path) {
    forall c | c in script :: Spares(c, q)
  }

  lemma {:induction false} ScriptSpares(fs: Node, script: seq<Command>, q: Path, left: Node)
    requires AllSpare(script, q) && Leaves(fs, script, left)
    ensures Get(left, q) == Get(fs, q)
    decreases |script|
  {
    if left != fs {
      if MayLeave(fs, script[0], left) {
        Spared(fs, script[0], q, left);
      } else {
        SparedByExec(fs, script[0], q);
        ScriptSpares(Exec(fs, script[0]).fs, script[1..], q, left);
      }
    }
  }
}
