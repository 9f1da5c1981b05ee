/** Paths as the settings write them, and the components they name. */
module PathText {
  import opened RemoteFs

  /** The text between slashes. */
  function Pieces(s: string): (r: seq<string>)
    ensures r != []
  {
    if s == "" then [""]
    else
      var rest := Pieces(s[..|s| - 1]);
      if s[|s| - 1] == '/' then rest + [""] else rest[..|rest| - 1] + [Last(rest) + [s[|s| - 1]]]
  }

  function LastPiece(s: string): string { Last(Pieces(s)) }

  predicate Empty(piece: string) { piece in {"", "."} }

  function Keep(pieces: seq<string>): Path {
    if pieces == [] then []
    else Keep(pieces[..|pieces| - 1]) + (if Empty(Last(pieces)) then [] else [Last(pieces)])
  }

  /** The components a path names: empty ones and `.` name nothing. */
  function Parse(s: string): Path { Keep(Pieces(s)) }

  /** `s.rstrip("/")` */
  function WithoutSlashes(s: string): string {
    if s != "" && s[|s| - 1] == '/' then WithoutSlashes(s[..|s| - 1]) else s
  }

  /** Up to and with the last slash. */
  function Head(s: string): string {
    if s == "" || s[|s| - 1] == '/' then s else Head(s[..|s| - 1])
  }

  /** `posixpath.dirname(s.rstrip("/")) or "/"`, up to slashes at its end. */
  function DirName(s: string): string { Head(WithoutSlashes(s)) }

  lemma {:induction false} PiecesAppend(s: string, t: string)
    requires '/' !in t
    ensures Pieces(s + t) == Pieces(s)[..|Pieces(s)| - 1] + [LastPiece(s) + t]
  {
    if t == "" {
      assert s + t == s && LastPiece(s) + t == LastPiece(s);
    } else {
      assert (s + t)[..|s + t| - 1] == s + t[..|t| - 1];
      PiecesAppend(s, t[..|t| - 1]);
      assert t[|t| - 1] in t && (s + t)[|s + t| - 1] == t[|t| - 1];
      assert (LastPiece(s) + t[..|t| - 1]) + [t[|t| - 1]] == LastPiece(s) + t;
    }
  }

  function Before(s: string): Path { Keep(Pieces(s)[..|Pieces(s)| - 1]) }

  lemma ParseSplits(s: string)
    ensures Parse(s) == Before(s) + (if Empty(LastPiece(s)) then [] else [LastPiece(s)])
  {
  }

  lemma {:induction false} HeadNamesBefore(s: string)
    ensures Parse(Head(s)) == Before(s)
  {
    if s == "" {
    } else if s[|s| - 1] == '/' {
      assert Pieces(s)[..|Pieces(s)| - 1] == Pieces(s[..|s| - 1]);
      ParseSplits(s);
    } else {
      HeadNamesBefore(s[..|s| - 1]);
      assert Pieces(s)[..|Pieces(s)| - 1] == Pieces(s[..|s| - 1])[..|Pieces(s[..|s| - 1])| - 1];
    }
  }

  lemma {:induction false} SlashesNameNothing(s: string)
    ensures Parse(WithoutSlashes(s)) == Parse(s)
  {
    if s != "" && s[|s| - 1] == '/' {
      SlashesNameNothing(s[..|s| - 1]);
      assert Pieces(s)[..|Pieces(s)| - 1] == Pieces(s[..|s| - 1]);
      ParseSplits(s);
    }
  }

  /** `<path>.previous` stands beside the path, unless the path ends in a slash or in `/.`: then inside it. */
  lemma PreviousStands(s: string)
    ensures !Empty(LastPiece(s)) ==>
              Parse(s) == Before(s) + [LastPiece(s)]
              && Parse(s + ".previous") == Before(s) + [LastPiece(s) + ".previous"]
    ensures Empty(LastPiece(s)) ==> Parse(s + ".previous") == Parse(s) + [LastPiece(s) + ".previous"]
  {
    ParseSplits(s);
    PiecesAppend(s, ".previous");
    ParseSplits(s + ".previous");
    assert Pieces(s + ".previous")[..|Pieces(s + ".previous")| - 1] == Pieces(s)[..|Pieces(s)| - 1];
    PreviousIsAName(LastPiece(s));
  }

  lemma PreviousIsAName(piece: string)
    ensures !Empty(piece + ".previous")
  {
    assert |piece + ".previous"| >= 9;
  }

  lemma NoSlashAtEnd(s: string)
    requires LastPiece(s) != ""
    ensures WithoutSlashes(s) == s
  {
  }

  /** The directory a path is made in: what comes before its last component, or, when the path ends in
      `/.`, the path itself. */
  lemma DirNameStands(s: string)
    requires Parse(s) != []
    ensures Parse(DirName(s)) == Parent(Parse(s)) || Parse(DirName(s)) == Parse(s)
    ensures !Empty(LastPiece(s)) ==> Parse(DirName(s)) == Parent(Parse(s))
  {
    var t := WithoutSlashes(s);
    SlashesNameNothing(s);
    HeadNamesBefore(t);
    ParseSplits(t);
    if LastPiece(s) != "" { NoSlashAtEnd(s); }
  }

  // ----- names -----------------------------------------------------------------------------------------------------

  predicate Name(piece: string) { !Empty(piece) && '/' !in piece }

  predicate Names(p: Path) { forall piece | piece in p :: Name(piece) }

  lemma {:induction false} PiecesHaveNoSlash(s: string)
    ensures forall piece | piece in Pieces(s) :: '/' !in piece
  {
    if s != "" {
      PiecesHaveNoSlash(s[..|s| - 1]);
      var rest := Pieces(s[..|s| - 1]);
      assert Last(rest) in rest;
    }
  }

  lemma {:induction false} KeptAreNames(pieces: seq<string>)
    requires forall piece | piece in pieces :: '/' !in piece
    ensures Names(Keep(pieces))
  {
    if pieces != [] {
      KeptAreNames(pieces[..|pieces| - 1]);
      assert Last(pieces) in pieces;
    }
  }

  lemma ParsedAreNames(s: string)
    ensures Names(Parse(s))
  {
    PiecesHaveNoSlash(s);
    KeptAreNames(Pieces(s));
  }

  /** One more name behind a slash is one more component. */
  lemma ParseChild(text: string, name: string)
    requires Name(name)
    ensures Parse(text + "/" + name) == Parse(text) + [name]
  {
    var s := text + "/";
    assert s[..|s| - 1] == text;
    assert Pieces(s) == Pieces(text) + [""];
    PiecesAppend(s, name);
    assert "" + name == name;
    var pieces := Pieces(s + name);
    assert pieces[..|pieces| - 1] == Pieces(text);
  }

  // ----- paths in two parts ------------------------------------------------------------------------------------

  lemma PiecesStep(s: string, c: char)
    ensures Pieces(s + [c]) == Grown(Pieces(s), c)
  {
    assert (s + [c])[..|s|] == s;
  }

  /** The pieces when one more character is read. */
  function Grown(pieces: seq<string>, c: char): seq<string>
    requires pieces != []
  {
    if c == '/' then pieces + [""] else pieces[..|pieces| - 1] + [Last(pieces) + [c]]
  }

  lemma {:induction false} PiecesJoin(a: string, b: string)
    ensures Pieces(a + "/" + b) == Pieces(a) + Pieces(b)
  {
    if b == "" {
      PiecesStep(a, '/');
      assert a + "/" + b == a + ['/'];
    } else {
      var init, c := b[..|b| - 1], b[|b| - 1];
      PiecesJoin(a, init);
      PiecesStep(a + "/" + init, c);
      PiecesStep(init, c);
      assert b == init + [c] && a + "/" + b == a + "/" + init + [c];
      GrownJoins(Pieces(a), Pieces(init), c);
    }
  }

  lemma GrownJoins(a: seq<string>, b: seq<string>, c: char)
    requires b != []
    ensures Grown(a + b, c) == a + Grown(b, c)
  {
    Appends(a, b, "");
    LastOfJoined(a, b, c);
  }

  lemma Appends(a: seq<string>, b: seq<string>, piece: string)
    ensures (a + b) + [piece] == a + (b + [piece])
  {
  }

  lemma LastOfJoined(a: seq<string>, b: seq<string>, c: char)
    requires b != []
    ensures (a + b)[..|a + b| - 1] + [Last(a + b) + [c]] == a + (b[..|b| - 1] + [Last(b) + [c]])
  {
  }

  lemma {:induction false} KeepJoins(a: seq<string>, b: seq<string>)
    ensures Keep(a + b) == Keep(a) + Keep(b)
  {
    if b == [] {
      assert a + b == a && Keep(a) + [] == Keep(a);
    } else {
      assert (a + b)[..|a + b| - 1] == a + b[..|b| - 1] && Last(a + b) == Last(b);
      KeepJoins(a, b[..|b| - 1]);
    }
  }

  lemma ParseJoins(a: string, b: string)
    ensures Parse(a + "/" + b) == Parse(a) + Parse(b)
  {
    PiecesJoin(a, b);
    KeepJoins(Pieces(a), Pieces(b));
  }

  // ----- paths as Python reads them -------------------------------------------------------------------------------

  /** Exactly two leading slashes are a root of their own to Python, though not to the file system. */
  predicate DoubleRoot(s: string) {
    |s| >= 2 && s[0] == s[1] == '/' && (|s| == 2 || s[2] != '/')
  }

  /** A path as Python reads its text. */
  datatype PosixPath = PosixPath(absolute: bool, doubleRoot: bool, parts: Path)

  function ReadPath(text: string): PosixPath {
    PosixPath(text != "" && text[0] == '/', DoubleRoot(text), Parse(text))
  }
}
