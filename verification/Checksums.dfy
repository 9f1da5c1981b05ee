/** The checksum list of an export archive: how the exporter writes it and how a deployment reads it back. */
module Checksums {
  import opened Wrappers
  import opened PyStrings

  // ----- the archive ------------------------------------------------------------------------------------------

  datatype Entry = Entry(path: string, content: string)

  const SUMS_NAME := "SHA256SUMS"

  /** `archive.read(name)`: of entries with the same name the last one answers. */
  function Read(archive: seq<Entry>, path: string): Option<string> {
    if archive == [] then None
    else if archive[|archive| - 1].path == path then Some(archive[|archive| - 1].content)
    else Read(archive[..|archive| - 1], path)
  }

  /** Hex digests: what the list needs of a hash is that its text has 64 such characters. */
  predicate IsDigest(s: string) {
    |s| == 64 && forall c | c in s :: '0' <= c <= '9' || 'a' <= c <= 'f'
  }

  ghost predicate IsHash(hash: string -> string) { forall content :: IsDigest(hash(content)) }

  // ----- reading ------------------------------------------------------------------------------------------------

  /** The characters `str.splitlines` breaks at. */
  predicate IsBreak(c: char) {
    var n := c as int;
    10 <= n <= 13 || 28 <= n <= 30 || n == 0x85 || n == 0x2028 || n == 0x2029
  }

  predicate NoBreaks(s: string) { forall c | c in s :: !IsBreak(c) }

  /** Up to the first break. */
  function FirstLine(s: string): (r: string)
    ensures r <= s && NoBreaks(r) && (|r| < |s| ==> IsBreak(s[|r|]))
  {
    if s == "" || IsBreak(s[0]) then "" else [s[0]] + FirstLine(s[1..])
  }

  /** What follows the first line and its break; a carriage return takes a line feed with it. */
  function AfterFirstLine(s: string): (r: string)
    ensures s != "" ==> |r| < |s|
    ensures s == "" ==> r == ""
  {
    var n := |FirstLine(s)|;
    if n == |s| then ""
    else if s[n] == '\r' && n + 1 < |s| && s[n + 1] == '\n' then s[n + 2..]
    else s[n + 1..]
  }

  function SplitLines(s: string): seq<string>
    decreases |s|
  {
    if s == "" then [] else [FirstLine(s)] + SplitLines(AfterFirstLine(s))
  }

  predicate Blank(line: string) { forall c | c in line :: IsSpace(c) }

  /** Up to the first whitespace. */
  function Word(s: string): (r: string)
    ensures r <= s
  {
    if s == "" || IsSpace(s[0]) then "" else [s[0]] + Word(s[1..])
  }

  /** `line.split(None, 1)`, when it has two parts. */
  function SplitOnce(line: string): Option<(string, string)> {
    var text := StripLeft(line);
    var head := Word(text);
    var rest := StripLeft(text[|head|..]);
    if head == "" || rest == "" then None else Some((head, rest))
  }

  datatype Problem = NoList | BadLine(line: string) | NoMember(path: string) | Mismatch(path: string)

  /** What is wrong with a line of the list, if anything. */
  function LineProblem(archive: seq<Entry>, hash: string -> string, line: string): Option<Problem> {
    if Blank(line) then None
    else
      var parts := SplitOnce(line);
      if parts.None? then Some(BadLine(line))
      else
        var path := Strip(parts.value.1);
        var content := Read(archive, path);
        if content.None? then Some(NoMember(path))
        else if hash(content.value) != parts.value.0 then Some(Mismatch(path))
        else None
  }

  /** A line that is blank, or lists a member that exists and has the listed digest. */
  predicate LineHolds(archive: seq<Entry>, hash: string -> string, line: string) {
    Blank(line)
    || (SplitOnce(line).Some?
        && var (digest, path) := SplitOnce(line).value;
        Read(archive, Strip(path)).Some? && hash(Read(archive, Strip(path)).value) == digest)
  }

  predicate AllOf(good: string -> bool, lines: seq<string>) {
    forall i | 0 <= i < |lines| :: good(lines[i])
  }

  predicate AllHold(archive: seq<Entry>, hash: string -> string, lines: seq<string>) {
    AllOf(line => LineHolds(archive, hash, line), lines)
  }

  predicate Accepts(archive: seq<Entry>, hash: string -> string) {
    Read(archive, SUMS_NAME).Some? && AllHold(archive, hash, SplitLines(Read(archive, SUMS_NAME).value))
  }

  /** `problem` is that of the first line that does not hold. */
  ghost predicate FirstFault(archive: seq<Entry>, hash: string -> string, lines: seq<string>, problem: Problem) {
    exists i | 0 <= i < |lines| :: LineProblem(archive, hash, lines[i]) == Some(problem)
        && AllHold(archive, hash, lines[..i])
  }

  /** The break characters, and what breaks a line: one of them, or a carriage return and a line feed together. */
  const BREAKS := "\n\U{B}\U{C}\r\U{1C}\U{1D}\U{1E}\U{85}\U{2028}\U{2029}"

  predicate BreaksBefore(mark: string, rest: string) {
    mark == "\r\n" || (|mark| == 1 && mark[0] in BREAKS && !(mark == "\r" && rest != "" && rest[0] == '\n'))
  }

  lemma BreakIsOne(c: char)
    ensures IsBreak(c) <==> c in BREAKS
  {
    if IsBreak(c) { BreakIsListed(c); }
  }

  lemma BreakIsListed(c: char)
    requires IsBreak(c)
    ensures c in BREAKS
  {
    var n := c as int;
    if n < 14 {
      assert c == BREAKS[n - 10];
    } else if n < 31 {
      assert c == BREAKS[n - 24];
    } else {
      assert c == BREAKS[7] || c == BREAKS[8] || c == BREAKS[9];
    }
  }

  /** The lines of a text: up to each break, and what is left behind the last. */
  lemma LinesAre(line: string, mark: string, rest: string)
    requires forall c | c in line :: c !in BREAKS
    ensures SplitLines(line) == if line == "" then [] else [line]
    ensures BreaksBefore(mark, rest) ==> SplitLines(line + mark + rest) == [line] + SplitLines(rest)
  {
    forall c | c in line ensures !IsBreak(c) { BreakIsOne(c); }
    WholeLine(line);
    if BreaksBefore(mark, rest) {
      BreakIsOne(mark[0]);
      UpToBreak(line, mark, rest);
      BehindBreak(line, mark, rest);
    }
  }

  lemma {:induction false} WholeLine(line: string)
    requires NoBreaks(line)
    ensures FirstLine(line) == line
  {
    if line != "" { WholeLine(line[1..]); }
  }

  lemma {:induction false} UpToBreak(line: string, mark: string, rest: string)
    requires NoBreaks(line) && mark != "" && IsBreak(mark[0])
    ensures FirstLine(line + mark + rest) == line
  {
    if line == "" {
      assert (line + mark + rest)[0] == mark[0];
    } else {
      assert (line + mark + rest)[1..] == line[1..] + mark + rest;
      UpToBreak(line[1..], mark, rest);
    }
  }

  lemma BehindBreak(line: string, mark: string, rest: string)
    requires FirstLine(line + mark + rest) == line && BreaksBefore(mark, rest)
    ensures AfterFirstLine(line + mark + rest) == rest
  {
    var s, n := line + mark + rest, |line|;
    assert s[n] == mark[0];
    if mark == "\r\n" {
      assert s[n + 1] == '\n' && s[n + 2..] == rest;
    } else {
      assert s[n + 1..] == rest;
      if rest != "" { assert s[n + 1] == rest[0]; }
    }
  }

  /** `_verify_archive_checksums`: it accepts exactly the archives all of whose listed members exist and have
      their listed digests, and otherwise reports the first line that does not hold. */
  method VerifyArchiveChecksums(archive: seq<Entry>, hash: string -> string) returns (problem: Option<Problem>)
    ensures problem.None? <==> Accepts(archive, hash)
    ensures problem == Some(NoList) <==> Read(archive, SUMS_NAME).None?
    ensures problem == Some(NoList) <==> forall i | 0 <= i < |archive| :: archive[i].path != "SHA256SUMS"
    ensures problem.Some? && problem.value != NoList ==>
              FirstFault(archive, hash, SplitLines(Read(archive, SUMS_NAME).value), problem.value)
  {
    ReadIs(archive, SUMS_NAME);
    var sums := Read(archive, SUMS_NAME);
    if sums.None? { return Some(NoList); }
    problem := CheckLines(archive, hash, SplitLines(sums.value));
  }

  method CheckLines(archive: seq<Entry>, hash: string -> string, lines: seq<string>) returns (problem: Option<Problem>)
    ensures problem != Some(NoList) && (problem.None? <==> AllHold(archive, hash, lines))
    ensures problem.Some? ==> FirstFault(archive, hash, lines, problem.value)
  {
    for k := 0 to |lines|
      invariant AllHold(archive, hash, lines[..k])
    {
      AllOfGrows(line => LineHolds(archive, hash, line), lines, k);
      problem := CheckLine(archive, hash, lines[k]);
      if problem.Some? {
        return;
      }
    }
    assert lines[..|lines|] == lines;
    return None;
  }

  lemma AllOfGrows(good: string -> bool, lines: seq<string>, k: nat)
    requires k < |lines| && AllOf(good, lines[..k])
    ensures AllOf(good, lines[..k + 1]) <==> good(lines[k])
    ensures !good(lines[k]) ==> !AllOf(good, lines)
  {
    assert lines[..k + 1][k] == lines[k];
    forall i | 0 <= i < k ensures good(lines[i]) { assert lines[..k][i] == lines[i]; }
  }

  method CheckLine(archive: seq<Entry>, hash: string -> string, line: string) returns (problem: Option<Problem>)
    ensures problem == LineProblem(archive, hash, line) && problem != Some(NoList)
    ensures problem.None? <==> LineHolds(archive, hash, line)
  {
    problem := LineProblem(archive, hash, line);
  }

  // ----- what is reported, line by line ------------------------------------------------------------------------

  /** The last entry of this name. */
  predicate LastNamed(archive: seq<Entry>, path: string, i: nat) {
    i < |archive| && archive[i].path == path && forall j | i < j < |archive| :: archive[j].path != path
  }

  lemma {:induction false} ReadIs(archive: seq<Entry>, path: string)
    ensures Read(archive, path) == None <==> forall i | 0 <= i < |archive| :: archive[i].path != path
    ensures forall i: nat | LastNamed(archive, path, i) :: Read(archive, path) == Some(archive[i].content)
  {
    if archive != [] && archive[|archive| - 1].path != path {
      var init := archive[..|archive| - 1];
      ReadIs(init, path);
      forall i: nat | LastNamed(archive, path, i) ensures Read(archive, path) == Some(archive[i].content) {
        assert LastNamed(init, path, i);
      }
      if Read(archive, path) == None {
        forall i | 0 <= i < |archive| ensures archive[i].path != path { if i < |init| { assert init[i].path != path; } }
      }
    }
  }

  predicate OneWord(s: string) { s != "" && forall c | c in s :: !IsSpace(c) }

  /** A line with a digest and a path, however it is spaced: whether the archive has a member of that path, and
      whether the last one has that digest. */
  lemma ListedLine(archive: seq<Entry>, hash: string -> string, l: string, digest: string, gap: string, path: string,
                   r: string)
    requires AllSpace(l) && OneWord(digest) && gap != "" && AllSpace(gap) && path != "" && Trimmed(path) && AllSpace(r)
    ensures var problem := LineProblem(archive, hash, l + digest + gap + path + r);
            && ((forall i | 0 <= i < |archive| :: archive[i].path != path) ==> problem == Some(NoMember(path)))
            && forall i: nat | LastNamed(archive, path, i) ::
                 problem == if hash(archive[i].content) != digest then Some(Mismatch(path)) else None
  {
    Regrouped(l, digest, gap, path, r);
    SplitsInTwo(l, digest, gap, path + r);
    StripIs("", path, r);
    assert "" + path + r == path + r;
    ProblemOf(archive, hash, l + (digest + (gap + (path + r))), digest, path + r, path);
  }

  lemma Regrouped(l: string, digest: string, gap: string, path: string, r: string)
    ensures l + digest + gap + path + r == l + (digest + (gap + (path + r)))
  {
  }

  lemma ProblemOf(archive: seq<Entry>, hash: string -> string, line: string, digest: string, rest: string, path: string)
    requires !Blank(line) && SplitOnce(line) == Some((digest, rest)) && Strip(rest) == path
    ensures var problem := LineProblem(archive, hash, line);
            && ((forall i | 0 <= i < |archive| :: archive[i].path != path) ==> problem == Some(NoMember(path)))
            && forall i: nat | LastNamed(archive, path, i) ::
                 problem == if hash(archive[i].content) != digest then Some(Mismatch(path)) else None
  {
    ReadIs(archive, path);
  }

  lemma SplitsInTwo(l: string, word: string, gap: string, rest: string)
    requires AllSpace(l) && OneWord(word) && gap != "" && AllSpace(gap) && rest != "" && !IsSpace(rest[0])
    ensures var line := l + (word + (gap + rest)); !Blank(line) && SplitOnce(line) == Some((word, rest))
  {
    var line := l + (word + (gap + rest));
    assert word[0] in word && line[|l|] == word[0];
    SpaceBefore(l, word + (gap + rest));
    assert gap[0] in gap;
    WordOf(word, gap + rest);
    assert (word + (gap + rest))[|word|..] == gap + rest;
    SpaceBefore(gap, rest);
  }

  /** A line with one word is no line of the list. */
  lemma BareLine(archive: seq<Entry>, hash: string -> string, l: string, word: string, r: string)
    requires AllSpace(l) && OneWord(word) && AllSpace(r)
    ensures LineProblem(archive, hash, l + word + r) == Some(BadLine(l + word + r))
  {
    var line := l + word + r;
    assert line == l + (word + r);
    assert word[0] in word && word[0] in line;
    SpaceBefore(l, word + r);
    if r != "" { assert r[0] in r; }
    WordOf(word, r);
    assert (word + r)[|word|..] == r;
    NothingLeft(r);
  }

  lemma BlankLine(archive: seq<Entry>, hash: string -> string, line: string)
    requires AllSpace(line)
    ensures LineProblem(archive, hash, line) == None
  {
  }

  // ----- writing ------------------------------------------------------------------------------------------------

  function SumLine(hash: string -> string, e: Entry): string { hash(e.content) + "  " + e.path }

  /** `"\n".join(lines) + "\n"` */
  function JoinLines(lines: seq<string>): string {
    if lines == [] then "\n" else if |lines| == 1 then lines[0] + "\n" else lines[0] + "\n" + JoinLines(lines[1..])
  }

  function SumLines(hash: string -> string, files: seq<Entry>): seq<string> {
    seq(|files|, i requires 0 <= i < |files| => SumLine(hash, files[i]))
  }

  /** `sha256sums`. */
  function Sums(hash: string -> string, files: seq<Entry>): string { JoinLines(SumLines(hash, files)) }

  /** The archive the exporter builds: its files, then the list of their digests. */
  function Exported(hash: string -> string, files: seq<Entry>): seq<Entry> {
    files + [Entry(SUMS_NAME, Sums(hash, files))]
  }

  predicate Listable(path: string) { path != "" && Trimmed(path) && NoBreaks(path) && path != SUMS_NAME }

  // ----- the round trip -------------------------------------------------------------------------------------------

  lemma SplitFirst(line: string, rest: string)
    requires NoBreaks(line)
    ensures SplitLines(line + "\n" + rest) == [line] + SplitLines(rest)
  {
    UpToBreak(line, "\n", rest);
    BehindBreak(line, "\n", rest);
  }

  lemma {:induction false} LinesReadBack(lines: seq<string>)
    requires lines != [] && forall line | line in lines :: NoBreaks(line)
    ensures SplitLines(JoinLines(lines)) == lines
  {
    if |lines| == 1 {
      assert lines[0] + "\n" == lines[0] + "\n" + "";
      SplitFirst(lines[0], "");
    } else {
      SplitFirst(lines[0], JoinLines(lines[1..]));
      LinesReadBack(lines[1..]);
    }
  }

  lemma {:induction false} WordOf(word: string, rest: string)
    requires forall c | c in word :: !IsSpace(c)
    requires rest != "" ==> IsSpace(rest[0])
    ensures Word(word + rest) == word
  {
    if word == "" {
      assert word + rest == rest;
    } else {
      assert (word + rest)[1..] == word[1..] + rest;
      WordOf(word[1..], rest);
    }
  }

  lemma StripTwo(path: string)
    requires path != "" && !IsSpace(path[0])
    ensures StripLeft("  " + path) == path
  {
    var s := "  " + path;
    assert s[1..][1..] == path;
    SpaceIsSpace();
    SkipSpace(s);
    SkipSpace(s[1..]);
  }

  lemma SpaceIsSpace()
    ensures IsSpace(' ')
  {
  }

  lemma SkipSpace(s: string)
    requires s != "" && IsSpace(s[0])
    ensures StripLeft(s) == StripLeft(s[1..])
  {
  }

  lemma DigestHasNoSpace(digest: string)
    requires IsDigest(digest)
    ensures forall c | c in digest :: !IsSpace(c) && !IsBreak(c)
  {
  }

  /** A listed line splits back into its digest and its path. */
  lemma LineSplits(digest: string, path: string)
    requires IsDigest(digest) && path != "" && Trimmed(path)
    ensures SplitOnce(digest + "  " + path) == Some((digest, path)) && !Blank(digest + "  " + path)
  {
    var line := digest + "  " + path;
    DigestHasNoSpace(digest);
    assert line[0] == digest[0] && digest[0] in digest && line[0] in line;
    assert StripLeft(line) == line;
    assert line == digest + ("  " + path);
    WordOf(digest, "  " + path);
    assert line[|digest|..] == "  " + path;
    StripTwo(path);
  }

  /** What the archive answers for the entry's path has the entry's digest. */
  predicate Agrees(archive: seq<Entry>, hash: string -> string, e: Entry) {
    Read(archive, e.path).Some? && hash(Read(archive, e.path).value) == hash(e.content)
  }

  lemma ListedHolds(archive: seq<Entry>, hash: string -> string, e: Entry)
    requires IsHash(hash) && Listable(e.path)
    ensures LineHolds(archive, hash, SumLine(hash, e)) == Agrees(archive, hash, e)
  {
    LineSplits(hash(e.content), e.path);
    assert Strip(e.path) == e.path;
  }

  lemma {:induction false} ReadsSome(files: seq<Entry>, i: nat)
    requires i < |files|
    ensures Read(files, files[i].path).Some?
  {
    if i < |files| - 1 { ReadsSome(files[..|files| - 1], i); }
  }

  lemma ExportedReads(hash: string -> string, files: seq<Entry>, path: string)
    ensures Read(Exported(hash, files), SUMS_NAME) == Some(Sums(hash, files))
    ensures path != SUMS_NAME ==> Read(Exported(hash, files), path) == Read(files, path)
  {
    assert Exported(hash, files)[..|files|] == files;
  }

  lemma SumLinesHaveNoBreaks(hash: string -> string, files: seq<Entry>)
    requires IsHash(hash) && forall e | e in files :: Listable(e.path)
    ensures forall line | line in SumLines(hash, files) :: NoBreaks(line)
  {
    forall i | 0 <= i < |files| ensures NoBreaks(SumLine(hash, files[i])) {
      DigestHasNoSpace(hash(files[i].content));
      assert Listable(files[i].path);
    }
  }

  /** Every entry is what the archive answers for its path, up to its digest. */
  predicate NamesAgree(hash: string -> string, files: seq<Entry>) {
    forall i | 0 <= i < |files| :: Agrees(files, hash, files[i])
  }

  /** A deployment accepts an exported archive exactly when entries of the same path have the same digest. */
  lemma ExportAccepted(hash: string -> string, files: seq<Entry>)
    requires IsHash(hash) && forall e | e in files :: Listable(e.path)
    ensures Accepts(Exported(hash, files), hash) <==> NamesAgree(hash, files)
  {
    var archive := Exported(hash, files);
    ExportedReads(hash, files, "");
    if files == [] {
      assert "" + "\n" + "" == "\n";
      SplitFirst("", "");
    } else {
      SumLinesHaveNoBreaks(hash, files);
      LinesReadBack(SumLines(hash, files));
      ListingHolds(hash, files);
    }
  }

  lemma ListingHolds(hash: string -> string, files: seq<Entry>)
    requires IsHash(hash) && forall e | e in files :: Listable(e.path)
    ensures AllHold(Exported(hash, files), hash, SumLines(hash, files)) <==> NamesAgree(hash, files)
  {
    var archive := Exported(hash, files);
    forall i | 0 <= i < |files|
      ensures LineHolds(archive, hash, SumLines(hash, files)[i]) == Agrees(files, hash, files[i])
    {
      assert files[i] in files;
      ListedHolds(archive, hash, files[i]);
      ExportedReads(hash, files, files[i].path);
    }
  }

  predicate DistinctPaths(files: seq<Entry>) {
    forall i, j | 0 <= i < j < |files| :: files[i].path != files[j].path
  }

  lemma {:induction false} ReadsItself(files: seq<Entry>, i: nat)
    requires DistinctPaths(files) && i < |files|
    ensures Read(files, files[i].path) == Some(files[i].content)
  {
    if i < |files| - 1 { ReadsItself(files[..|files| - 1], i); }
  }

  /** With distinct paths every export is accepted. */
  lemma DistinctExportAccepted(hash: string -> string, files: seq<Entry>)
    requires IsHash(hash) && DistinctPaths(files) && forall e | e in files :: Listable(e.path)
    ensures Accepts(Exported(hash, files), hash)
  {
    forall i | 0 <= i < |files| ensures Read(files, files[i].path) == Some(files[i].content) { ReadsItself(files, i); }
    ExportAccepted(hash, files);
  }

  /** Once accepted, changing what the archive answers for a listed member gets it refused, unless the
      digests collide. */
  lemma TamperingIsRefused(hash: string -> string, files: seq<Entry>, i: nat, content: string)
    requires IsHash(hash) && DistinctPaths(files) && forall e | e in files :: Listable(e.path)
    requires i < |files| && hash(content) != hash(files[i].content)
    ensures !Accepts(files[i := Entry(files[i].path, content)] + [Entry(SUMS_NAME, Sums(hash, files))], hash)
  {
    var changed := files[i := Entry(files[i].path, content)];
    var archive := changed + [Entry(SUMS_NAME, Sums(hash, files))];
    assert archive[..|changed|] == changed;
    ReadsItself(changed, i);
    assert files[i] in files;
    SumLinesHaveNoBreaks(hash, files);
    LinesReadBack(SumLines(hash, files));
    ListedHolds(archive, hash, files[i]);
    assert !LineHolds(archive, hash, SumLines(hash, files)[i]);
  }
}
