/** The names given to uploaded audio prompts. */
module PromptNames {
  import opened PyStrings

  const MAX_NAME := 120

  const DEFAULT_NAME := "Audio prompt"

  function SuffixText(k: nat): string { " " + Decimal(k) }

  /** The name tried for suffix `k`. */
  function Candidate(base: string, k: nat): string { Upto(base, MAX_NAME - |SuffixText(k)|) + SuffixText(k) }

  // ----- candidates differ -------------------------------------------------------------------------------------

  /** What follows the last space. */
  function AfterLastSpace(s: string): string {
    if s == "" || s[|s| - 1] == ' ' then "" else AfterLastSpace(s[..|s| - 1]) + [s[|s| - 1]]
  }

  lemma {:induction false} LastWord(prefix: string, word: string)
    requires ' ' !in word
    ensures AfterLastSpace(prefix + [' '] + word) == word
  {
    var s := prefix + [' '] + word;
    if word != "" {
      assert word[|word| - 1] in word && s[|s| - 1] == word[|word| - 1];
      assert s[..|s| - 1] == prefix + [' '] + word[..|word| - 1];
      LastWord(prefix, word[..|word| - 1]);
    }
  }

  lemma SuffixReadsBack(base: string, k: nat)
    ensures AllDigits(AfterLastSpace(Candidate(base, k))) && DigitsValue(AfterLastSpace(Candidate(base, k))) == k
  {
    var prefix := Upto(base, MAX_NAME - |SuffixText(k)|);
    assert Candidate(base, k) == prefix + [' '] + Decimal(k);
    forall c | c in Decimal(k) ensures c != ' ' { assert IsDigit(c); }
    LastWord(prefix, Decimal(k));
    DecimalReadsBack(k);
  }

  /** Different suffixes give different names, whatever is cut off the base. */
  lemma CandidatesDiffer(base: string, j: nat, k: nat)
    requires Candidate(base, j) == Candidate(base, k)
    ensures j == k
  {
    SuffixReadsBack(base, j);
    SuffixReadsBack(base, k);
  }

  ghost predicate TakenUpTo(taken: set<string>, base: string, k: nat) {
    forall j | 2 <= j < k :: Candidate(base, j) in taken
  }

  function Tried(base: string, k: nat): set<string> {
    set j | 2 <= j < k :: Candidate(base, j)
  }

  lemma {:induction false} TriedCount(base: string, k: nat)
    requires 2 <= k
    ensures |Tried(base, k)| == k - 2
  {
    if k == 2 {
      assert Tried(base, k) == {};
    } else {
      TriedCount(base, k - 1);
      assert Tried(base, k) == Tried(base, k - 1) + {Candidate(base, k - 1)};
      if Candidate(base, k - 1) in Tried(base, k - 1) {
        var j :| 2 <= j < k - 1 && Candidate(base, j) == Candidate(base, k - 1);
        CandidatesDiffer(base, j, k - 1);
      }
    }
  }

  lemma {:induction false} SubsetIsNoLarger(a: set<string>, b: set<string>)
    requires a <= b
    ensures |a| <= |b|
  {
    if a != {} {
      var x :| x in a;
      SubsetIsNoLarger(a - {x}, b - {x});
    }
  }

  /** No more suffixes can be taken than there are names. */
  lemma TakenIsBounded(taken: set<string>, base: string, k: nat)
    requires 2 <= k && TakenUpTo(taken, base, k)
    ensures k - 2 <= |taken|
  {
    TriedCount(base, k);
    SubsetIsNoLarger(Tried(base, k), taken);
  }

  /** A candidate keeps all of the base that fits before its suffix. */
  lemma CandidateKeepsBase(base: string, k: nat)
    requires |Decimal(k)| < MAX_NAME
    ensures exists kept :: kept <= base && Candidate(base, k) == kept + (" " + Decimal(k))
              && (kept == base || |Candidate(base, k)| == 120)
  {
    var kept := Upto(base, MAX_NAME - |SuffixText(k)|);
    assert Candidate(base, k) == kept + (" " + Decimal(k));
    if kept != base { assert |kept| < |base|; }
  }

  // ----- the loop --------------------------------------------------------------------------------------------------

  /** The suffix that decided the name: the first that is free. */
  ghost predicate FirstFree(taken: set<string>, base: string, k: nat, name: string) {
    2 <= k <= |taken| + 2 && name == Candidate(base, k) && name !in taken && TakenUpTo(taken, base, k)
  }

  /** The loop of `_unique_prompt_name`: it ends, with the base name if that is free, else with the first
      free suffix, which is found within one more try than names are taken. */
  method UniqueName(taken: set<string>, base: string) returns (candidate: string)
    ensures candidate !in taken
    ensures base !in taken ==> candidate == base
    ensures base in taken ==> exists k :: FirstFree(taken, base, k, candidate)
  {
    candidate := base;
    var suffix := 2;
    while candidate in taken
      invariant 2 <= suffix <= |taken| + 3
      invariant if suffix == 2 then candidate == base else base in taken && candidate == Candidate(base, suffix - 1)
      invariant suffix > 2 ==> TakenUpTo(taken, base, suffix - 1)
      decreases |taken| + 3 - suffix
    {
      assert TakenUpTo(taken, base, suffix);
      TakenIsBounded(taken, base, suffix);
      candidate := Candidate(base, suffix);
      suffix := suffix + 1;
    }
    if base in taken {
      TakenIsBounded(taken, base, suffix - 1);
      assert FirstFree(taken, base, suffix - 1, candidate);
    }
  }

  /** A name fits the column exactly while its suffix text does. */
  lemma FitsIffSuffixFits(base: string, k: nat)
    requires |base| <= MAX_NAME
    ensures |Candidate(base, k)| <= MAX_NAME <==> |SuffixText(k)| <= MAX_NAME
  {
  }

  function PowerOfTen(d: nat): nat { if d == 0 then 1 else 10 * PowerOfTen(d - 1) }

  lemma {:induction false} DecimalLength(n: nat, d: nat)
    requires d >= 1 && n < PowerOfTen(d)
    ensures |Decimal(n)| <= d
  {
    if n >= 10 { DecimalLength(n / 10, d - 1); }
  }

  /** So the name fits whenever fewer than 10^119 - 2 names are taken. */
  lemma UniqueNameFits(taken: set<string>, base: string, k: nat, name: string)
    requires |base| <= MAX_NAME && FirstFree(taken, base, k, name) && |taken| + 2 < PowerOfTen(119)
    ensures |name| <= MAX_NAME
  {
    DecimalLength(k, 119);
    FitsIffSuffixFits(base, k);
  }

  // ----- the base name ---------------------------------------------------------------------------------------------

  function Softened(s: string): string {
    seq(|s|, i requires 0 <= i < |s| => if s[i] in {'_', '-'} then ' ' else s[i])
  }

  /** `s.split()` */
  function Words(s: string): seq<string>
    decreases |s|
  {
    if s == "" then []
    else if IsSpace(s[0]) then Words(s[1..])
    else
      var rest := Words(s[1..]);
      if |s| > 1 && !IsSpace(s[1]) && rest != [] then [[s[0]] + rest[0]] + rest[1..] else [[s[0]]] + rest
  }

  function JoinWords(words: seq<string>): string {
    if words == [] then "" else if |words| == 1 then words[0] else words[0] + " " + JoinWords(words[1..])
  }

  function BaseName(raw: string): (r: string)
    ensures 0 < |r| <= MAX_NAME
  {
    var name := JoinWords(Words(Softened(if raw == "" then DEFAULT_NAME else raw)));
    var cut := Upto(name, MAX_NAME);
    if cut == "" then DEFAULT_NAME else cut
  }

  /** Gaps and words in turn: a gap, a word, a gap, ..., a last gap. */
  function Woven(gaps: seq<string>, words: seq<string>): string
    requires |gaps| == |words| + 1
  {
    if words == [] then gaps[0] else gaps[0] + words[0] + Woven(gaps[1..], words[1..])
  }

  predicate Separates(c: char) { IsSpace(c) || c == '_' || c == '-' }

  predicate Gap(s: string) { forall c | c in s :: Separates(c) }

  predicate WholeWord(s: string) { s != "" && forall c | c in s :: !Separates(c) }

  /** The words with gaps around them, none missing between two. */
  predicate Spaced(gaps: seq<string>, words: seq<string>) {
    && |gaps| == |words| + 1
    && (forall i | 0 <= i < |gaps| :: Gap(gaps[i])) && (forall i | 0 < i < |words| :: gaps[i] != "")
    && (forall i | 0 <= i < |words| :: WholeWord(words[i]))
  }

  lemma SoftenedJoins(a: string, b: string)
    ensures Softened(a + b) == Softened(a) + Softened(b)
  {
  }

  lemma {:induction false} GapIsSkipped(gap: string, rest: string)
    requires Gap(gap)
    ensures Words(Softened(gap + rest)) == Words(Softened(rest))
    decreases |gap|
  {
    if gap == "" {
      assert gap + rest == rest;
    } else {
      assert gap[0] in gap;
      var s := Softened(gap + rest);
      assert (gap + rest)[1..] == gap[1..] + rest;
      assert s[1..] == Softened(gap[1..] + rest);
      assert IsSpace(s[0]);
      GapIsSkipped(gap[1..], rest);
    }
  }

  lemma {:induction false} WordIsTaken(word: string, rest: string)
    requires WholeWord(word) && (rest != "" ==> Separates(rest[0]))
    ensures Words(Softened(word + rest)) == [word] + Words(Softened(rest))
    decreases |word|
  {
    var s := Softened(word + rest);
    assert word[0] in word && s[0] == word[0];
    assert (word + rest)[1..] == word[1..] + rest;
    assert s[1..] == Softened(word[1..] + rest);
    if |word| == 1 {
      assert word == [word[0]] && word[1..] + rest == rest;
      if rest != "" { assert IsSpace(s[1]); }
    } else {
      assert word[1] in word && s[1] == word[1];
      forall c | c in word[1..] ensures c in word { }
      WordIsTaken(word[1..], rest);
      assert [word[0]] + word[1..] == word;
    }
  }

  lemma RestIsSpaced(gaps: seq<string>, words: seq<string>)
    requires Spaced(gaps, words) && words != []
    ensures Spaced(gaps[1..], words[1..])
    ensures var rest := Woven(gaps[1..], words[1..]); rest != "" ==> Separates(rest[0])
  {
    if words[1..] != [] {
      assert gaps[1] != "" && gaps[1][0] in gaps[1];
      assert gaps[1..][0] == gaps[1];
      assert Woven(gaps[1..], words[1..])[0] == gaps[1][0];
    } else {
      assert Woven(gaps[1..], words[1..]) == gaps[1..][0] == gaps[1];
      if gaps[1] != "" { assert gaps[1][0] in gaps[1]; }
    }
  }

  /** However a text is laid out, its words are found. */
  lemma {:induction false} WordsAreFound(gaps: seq<string>, words: seq<string>)
    requires Spaced(gaps, words)
    ensures Words(Softened(Woven(gaps, words))) == words
    decreases |words|
  {
    if words == [] {
      GapIsSkipped(gaps[0], "");
      assert gaps[0] + "" == gaps[0];
    } else {
      var rest := Woven(gaps[1..], words[1..]);
      RestIsSpaced(gaps, words);
      WordsAreFound(gaps[1..], words[1..]);
      WordIsTaken(words[0], rest);
      GapIsSkipped(gaps[0], words[0] + rest);
      assert Woven(gaps, words) == gaps[0] + (words[0] + rest);
      assert [words[0]] + words[1..] == words;
    }
  }

  /** Nothing before the first word, one blank between two, nothing behind the last. */
  function OneBlank(n: nat): seq<string> {
    seq(n + 1, i => if i == 0 || i == n then "" else " ")
  }

  lemma {:induction false} JoinedByBlanks(words: seq<string>)
    requires words != []
    ensures JoinWords(words) == Woven(OneBlank(|words|), words)
  {
    var n := |words|;
    if n == 1 {
      assert Woven(OneBlank(1)[1..], words[1..]) == "";
      assert words[0] == "" + words[0] + "";
    } else {
      JoinedByBlanks(words[1..]);
      var rest := words[1..];
      BlanksFollow(n, rest);
      assert Woven(OneBlank(n), words) == "" + words[0] + Woven(OneBlank(n)[1..], rest);
    }
  }

  lemma BlanksFollow(n: nat, rest: seq<string>)
    requires n >= 2 && |rest| == n - 1
    ensures Woven(OneBlank(n)[1..], rest) == " " + Woven(OneBlank(n - 1), rest)
  {
    var g, h := OneBlank(n)[1..], OneBlank(n - 1);
    assert g[0] == " " && h[0] == "" && g[1..] == h[1..];
    Regroups(" ", rest[0], Woven(h[1..], rest[1..]));
  }

  lemma Regroups(blank: string, word: string, tail: string)
    ensures blank + word + tail == blank + ("" + word + tail)
  {
  }

  /** The base name of any text, laid out as gaps and words: the words with one blank between two, cut to what
      fits; and the default name if the text has no words. */
  lemma BaseNameIs(gaps: seq<string>, words: seq<string>)
    requires Spaced(gaps, words)
    ensures var raw := Woven(gaps, words); var spaced := Woven(OneBlank(|words|), words);
            && (words == [] ==> BaseName(raw) == "Audio prompt")
            && (words != [] ==> BaseName(raw) == if |spaced| <= 120 then spaced else spaced[..120])
  {
    var raw := Woven(gaps, words);
    WordsAreFound(gaps, words);
    if words == [] {
      if raw == "" { DefaultStays(); }
    } else {
      assert words[0][0] in words[0];
      NotEmptyWoven(gaps, words);
      JoinedByBlanks(words);
      NotEmptyWoven(OneBlank(|words|), words);
      assert Upto(JoinWords(words), MAX_NAME) <= JoinWords(words);
    }
  }

  lemma NotEmptyWoven(gaps: seq<string>, words: seq<string>)
    requires |gaps| == |words| + 1 && words != [] && words[0] != ""
    ensures Woven(gaps, words) != ""
  {
    assert |Woven(gaps, words)| >= |words[0]|;
  }

  lemma DefaultStays()
    ensures BaseName("") == DEFAULT_NAME
  {
    var gaps, words := ["", " ", ""], ["Audio", "prompt"];
    assert Woven(gaps[1..][1..], words[1..][1..]) == "";
    assert Woven(gaps[1..], words[1..]) == " " + "prompt" + "";
    assert Woven(gaps, words) == "Audio prompt";
    WordsAreFound(gaps, words);
    assert words[1..] == ["prompt"];
    assert JoinWords(words) == "Audio" + " " + "prompt";
  }

  /** `_unique_prompt_name`: a free name that fits. */
  method UniquePromptName(taken: set<string>, raw: string) returns (name: string)
    ensures name !in taken
    ensures BaseName(raw) !in taken ==> name == BaseName(raw)
    ensures BaseName(raw) in taken ==> exists k :: FirstFree(taken, BaseName(raw), k, name)
    ensures |taken| + 2 < PowerOfTen(119) ==> |name| <= MAX_NAME
  {
    name := UniqueName(taken, BaseName(raw));
    if BaseName(raw) in taken && |taken| + 2 < PowerOfTen(119) {
      ghost var k :| FirstFree(taken, BaseName(raw), k, name);
      UniqueNameFits(taken, BaseName(raw), k, name);
    }
  }
}
