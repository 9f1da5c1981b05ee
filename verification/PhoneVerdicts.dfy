/** When the phone import accepts a row, from the texts of its cells, and what the plan then says. */
module PhoneVerdicts {
  import opened Wrappers
  import opened PyStrings
  import opened PhoneCells
  import opened PhoneImport

  // ----- numbers -------------------------------------------------------------------------------------------------

  lemma NothingIsMissing(value: string)
    requires AllSpace(value)
    ensures PositiveOf(value) == Err(NumberMissing)
  {
    NothingLeft(value);
  }

  /** Digits and single underscores between them are a number, whose value the underscores do not change. */
  lemma UnderscoresAreTaken(s: string, n: nat, d: nat)
    requires IntOf(s) == Some(n) && s != "" && IsDigit(s[0]) && d < 10
    ensures IntOf(s + Decimal(d)) == Some(10 * n + d) && IntOf(s + "_" + Decimal(d)) == Some(10 * n + d)
    ensures IntOf(s + "_") == None && IntOf("_" + s) == None && IntOf(s + "__" + Decimal(d)) == None
  {
    var c := DigitFor(d);
    assert Decimal(d) == [c];
    OneMoreDigit(s, c);
    assert s[0] == (s + [c])[0] == (s + "_" + [c])[0] == (s + "_")[0] == (s + "__" + [c])[0];
    if IsNumeral("_" + s) { FirstIsDigit("_" + s); }
  }

  lemma OneMoreDigit(s: string, c: char)
    requires IsNumeral(s) && IsDigit(c)
    ensures IsNumeral(s + [c]) && NumeralValue(s + [c]) == 10 * NumeralValue(s) + DigitValue(c)
    ensures !IsNumeral(s + "_") && !IsNumeral(s + "__" + [c])
    ensures IsNumeral(s + "_" + [c]) && NumeralValue(s + "_" + [c]) == 10 * NumeralValue(s) + DigitValue(c)
  {
    assert (s + [c])[..|s|] == s;
    assert (s + "_" + [c])[..|s|] == s && (s + "_" + [c])[..|s| + 1] == s + "_";
    assert (s + "__" + [c])[..|s| + 2] == s + "__" && (s + "__" + [c])[..|s| + 1] == s + "_";
  }

  lemma {:induction false} FirstIsDigit(s: string)
    requires IsNumeral(s)
    ensures IsDigit(s[0])
  {
    if |s| > 1 {
      if IsNumeral(s[..|s| - 1]) { FirstIsDigit(s[..|s| - 1]); } else { FirstIsDigit(s[..|s| - 2]); }
    }
  }

  /** A plus sign is taken; zero and negative numbers are refused; and so is text with any other character. */
  lemma PlusIsTaken(n: int)
    requires n >= 1
    ensures PositiveOf("+" + Decimal(n)) == Ok(n)
  {
    var text := "+" + Decimal(n);
    DecimalIsNumeral(n);
    DecimalIsTrimmed(n);
    assert text[1..] == Decimal(n) && Trimmed(text);
    StripsToItself(text);
    PositiveIs(text, text, n);
  }

  lemma NotPositiveIsRefused(n: int)
    requires n <= 0
    ensures PositiveOf(Number(n)) == Err(NotPositive(Number(n)))
  {
    var text := Number(n);
    DecimalIsTrimmed(-n);
    if n < 0 { MinusIsTrimmed(Decimal(-n)); }
    StripsToItself(text);
    IntOfNumber(n);
  }

  lemma MinusIsTrimmed(digits: string)
    requires digits != "" && Trimmed(digits)
    ensures Trimmed("-" + digits)
  {
  }

  lemma IntOfNumber(n: int)
    requires n <= 0
    ensures IntOf(Number(n)) == Some(n)
  {
    DecimalIsNumeral(-n);
    if n < 0 { SignedIs(Decimal(-n)); } else { IntReadsBack(0); }
  }

  lemma SignedIs(digits: string)
    requires IsNumeral(digits)
    ensures IntOf("-" + digits) == Some(-(NumeralValue(digits) as int))
  {
    assert ("-" + digits)[1..] == digits;
  }

  lemma {:induction false} NumeralHasDigits(s: string)
    requires IsNumeral(s)
    ensures forall c | c in s :: IsDigit(c) || c == '_'
  {
    if |s| > 1 {
      if IsNumeral(s[..|s| - 1]) {
        NumeralHasDigits(s[..|s| - 1]);
        assert s == s[..|s| - 1] + [s[|s| - 1]];
      } else {
        NumeralHasDigits(s[..|s| - 2]);
        assert s == s[..|s| - 2] + [s[|s| - 2], s[|s| - 1]];
      }
    }
  }

  lemma OtherTextIsRefused(value: string, i: nat)
    requires i < |Strip(value)|
    requires var c := Strip(value)[i]; !IsDigit(c) && c != '_' && (i == 0 ==> c != '+' && c != '-')
    ensures PositiveOf(value) == Err(NotPositive(Strip(value)))
  {
    var text := Strip(value);
    assert text[i] in text;
    if text[0] in {'+', '-'} {
      assert text[1..][i - 1] == text[i] && text[1..][i - 1] in text[1..];
      if IsNumeral(text[1..]) { NumeralHasDigits(text[1..]); }
    } else if IsNumeral(text) {
      NumeralHasDigits(text);
    }
  }

  // ----- the entries of a cell -------------------------------------------------------------------------------------

  /** The texts with bars between them. */
  function Barred(texts: seq<string>): string
    requires texts != []
  {
    if |texts| == 1 then texts[0] else texts[0] + "|" + Barred(texts[1..])
  }

  predicate BlankText(s: string) { forall c | c in s :: IsSpace(c) }

  /** Those that are not blank, stripped. */
  function Shown(texts: seq<string>): seq<string> {
    if texts == [] then []
    else
      var last := texts[|texts| - 1];
      Shown(texts[..|texts| - 1]) + (if BlankText(last) then [] else [Strip(last)])
  }

  lemma BlankIsStripped(s: string)
    ensures BlankText(s) <==> Strip(s) == ""
  {
    if BlankText(s) {
      NothingLeft(s);
      assert Strip(s) == StripRight("");
    } else {
      StripTakesSpaceOnly(s);
    }
  }

  lemma {:induction false} ShownFromFront(texts: seq<string>)
    requires texts != []
    ensures Shown(texts) == (if BlankText(texts[0]) then [] else [Strip(texts[0])]) + Shown(texts[1..])
  {
    var init, last := texts[..|texts| - 1], texts[|texts| - 1];
    if |texts| == 1 {
      assert init == [] && texts[1..] == [];
    } else {
      ShownFromFront(init);
      assert init[1..] == texts[1..][..|texts[1..]| - 1];
    }
  }

  lemma {:induction false} KeptAreShown(texts: seq<string>)
    ensures NonEmpty(texts) == Shown(texts)
  {
    if texts != [] {
      ShownFromFront(texts);
      BlankIsStripped(texts[0]);
      KeptAreShown(texts[1..]);
    }
  }

  lemma {:induction false} BarredSplits(texts: seq<string>)
    requires texts != [] && forall t | t in texts :: '|' !in t
    ensures SplitAll(Barred(texts), '|') == texts
  {
    assert texts[0] in texts;
    if |texts| == 1 {
      IndexMissing(texts[0], '|');
    } else {
      BarredSplits(texts[1..]);
      SplitsOnce(texts[0], '|', Barred(texts[1..]), 0);
      assert texts[0] + "|" + Barred(texts[1..]) == texts[0] + ['|'] + Barred(texts[1..]);
    }
  }

  /** A cell's entries are the texts between its bars, stripped, but for blank ones. */
  lemma EntriesAreShown(texts: seq<string>)
    requires texts != [] && forall t | t in texts :: '|' !in t
    ensures Entries(Barred(texts)) == Shown(texts)
  {
    BarredSplits(texts);
    KeptAreShown(texts);
  }

  /** An entry's parts are the texts between its first two colons, stripped. */
  lemma PartsAre(a: string, b: string, c: string)
    requires ':' !in a && ':' !in b
    ensures Parts(a) == [Strip(a)] && Parts(a + ":" + b) == [Strip(a), Strip(b)]
    ensures Parts(a + ":" + b + ":" + c) == [Strip(a), Strip(b), Strip(c)]
  {
    IndexMissing(a, ':');
    IndexMissing(b, ':');
    SplitsOnce(a, ':', b, 2);
    assert a + ":" + b == a + [':'] + b;
    SplitsOnce(b, ':', c, 1);
    SplitsOnce(a, ':', b + [':'] + c, 2);
    assert a + ":" + b + ":" + c == a + [':'] + (b + [':'] + c);
    StripsThree(a, b, c);
  }

  lemma StripsThree(a: string, b: string, c: string)
    ensures StripEach([a]) == [Strip(a)] && StripEach([a] + [b]) == [Strip(a), Strip(b)]
    ensures StripEach([a] + ([b] + [c])) == [Strip(a), Strip(b), Strip(c)]
  {
    assert [c][1..] == [] && StripEach([c]) == [Strip(c)];
    assert ([b] + [c])[1..] == [c] && StripEach([b] + [c]) == [Strip(b)] + [Strip(c)];
    assert ([a] + ([b] + [c]))[1..] == [b] + [c];
    assert [a][1..] == [] && [b][1..] == [] && ([a] + [b])[1..] == [b];
    assert StripEach([b]) == [Strip(b)];
  }

  // ----- line appearances ------------------------------------------------------------------------------------------

  /** Two or three parts, the first a positive number, the second an extension of the location. */
  predicate GoodLine(parts: seq<string>, known: Option<set<string>>) {
    && |parts| >= 2 && parts[0] != "" && parts[1] != "" && PositiveOf(parts[0]).Ok?
    && (known.Some? ==> parts[1] in known.value)
  }

  function LineOf(item: Item): LinePlan {
    var parts := item.parts;
    if |parts| < 2 || PositiveOf(parts[0]).Err? then LinePlan(0, "", "")
    else LinePlan(PositiveOf(parts[0]).value, parts[1], if |parts| == 2 then "" else parts[2])
  }

  predicate GoodLines(items: seq<Item>, known: Option<set<string>>) {
    && (forall i | 0 <= i < |items| :: GoodLine(items[i].parts, known))
    && forall i, j | 0 <= i < j < |items| :: LineOf(items[i]).index != LineOf(items[j]).index
  }

  function LinesOf(items: seq<Item>): seq<LinePlan> {
    seq(|items|, i requires 0 <= i < |items| => LineOf(items[i]))
  }

  function IndexSet(items: seq<Item>): set<int> { set i | 0 <= i < |items| :: LineOf(items[i]).index }

  lemma OneMoreLine(init: seq<Item>, last: Item, known: Option<set<string>>)
    ensures GoodLines(init + [last], known) <==>
              GoodLines(init, known) && GoodLine(last.parts, known) && LineOf(last).index !in IndexSet(init)
    ensures LinesOf(init + [last]) == LinesOf(init) + [LineOf(last)]
    ensures IndexSet(init + [last]) == IndexSet(init) + {LineOf(last).index}
  {
    var items := init + [last];
    forall i | 0 <= i < |init| ensures items[i] == init[i] { }
    assert items[|init|] == last;
    if GoodLines(items, known) {
      forall i, j | 0 <= i < j < |init| ensures LineOf(init[i]).index != LineOf(init[j]).index {
        assert items[i] == init[i] && items[j] == init[j];
      }
    }
    OneMoreIndex(init, last);
  }

  lemma OneMoreIndex(init: seq<Item>, last: Item)
    ensures IndexSet(init + [last]) == IndexSet(init) + {LineOf(last).index}
  {
    var items := init + [last];
    forall n | n in IndexSet(items) ensures n in IndexSet(init) + {LineOf(last).index} {
      var i :| 0 <= i < |items| && LineOf(items[i]).index == n;
      if i < |init| { assert items[i] == init[i]; }
    }
    forall n | n in IndexSet(init) + {LineOf(last).index} ensures n in IndexSet(items) {
      if n in IndexSet(init) {
        var i :| 0 <= i < |init| && LineOf(init[i]).index == n;
        assert items[i] == init[i];
      } else {
        assert items[|init|] == last;
      }
    }
  }

  /** The import finds nothing wrong with a cell of lines if and only if every entry is well formed, of a known
      extension, and no index comes twice; then it plans exactly those lines, in order. */
  lemma {:induction false} LinesVerdict(items: seq<Item>, known: Option<set<string>>)
    ensures ReadLines(items, known).problems == [] <==> GoodLines(items, known)
    ensures GoodLines(items, known) ==>
              ReadLines(items, known).plans == LinesOf(items) && ReadLines(items, known).seen == IndexSet(items)
  {
    if items != [] {
      var init, last := items[..|items| - 1], items[|items| - 1];
      assert items == init + [last];
      LinesVerdict(init, known);
      OneMoreLine(init, last, known);
      ReadLineAppends(ReadLines(init, known), last, known);
    }
  }

  lemma ReadLineAppends(s: LineState, item: Item, known: Option<set<string>>)
    ensures var next := ReadLine(s, item, known);
            && (next.problems == [] <==>
                  s.problems == [] && GoodLine(item.parts, known) && LineOf(item).index !in s.seen)
            && (next.problems == [] ==>
                  next.plans == s.plans + [LineOf(item)] && next.seen == s.seen + {LineOf(item).index})
  {
    NothingAdded(s.problems, [EntryMalformed(item.entry)]);
  }

  lemma NothingAdded(a: seq<Problem>, b: seq<Problem>)
    ensures a + b == [] <==> a == [] && b == []
  {
    assert |a + b| == |a| + |b|;
  }

  // ----- speed dials -----------------------------------------------------------------------------------------------

  /** Three parts, none empty, the first a positive number. */
  predicate GoodDial(parts: seq<string>) {
    |parts| == 3 && parts[0] != "" && parts[1] != "" && parts[2] != "" && PositiveOf(parts[0]).Ok?
  }

  function DialOf(item: Item): DialPlan {
    var parts := item.parts;
    if |parts| != 3 || PositiveOf(parts[0]).Err? then DialPlan(0, "", "")
    else DialPlan(PositiveOf(parts[0]).value, parts[1], parts[2])
  }

  predicate GoodDials(items: seq<Item>) {
    && (forall i | 0 <= i < |items| :: GoodDial(items[i].parts))
    && forall i, j | 0 <= i < j < |items| :: DialOf(items[i]).position != DialOf(items[j]).position
  }

  function DialsOf(items: seq<Item>): seq<DialPlan> {
    seq(|items|, i requires 0 <= i < |items| => DialOf(items[i]))
  }

  function PositionSet(items: seq<Item>): set<int> { set i | 0 <= i < |items| :: DialOf(items[i]).position }

  lemma OneMoreDial(init: seq<Item>, last: Item)
    ensures GoodDials(init + [last]) <==>
              GoodDials(init) && GoodDial(last.parts) && DialOf(last).position !in PositionSet(init)
    ensures DialsOf(init + [last]) == DialsOf(init) + [DialOf(last)]
    ensures PositionSet(init + [last]) == PositionSet(init) + {DialOf(last).position}
  {
    var items := init + [last];
    forall i | 0 <= i < |init| ensures items[i] == init[i] { }
    assert items[|init|] == last;
    if GoodDials(items) {
      forall i, j | 0 <= i < j < |init| ensures DialOf(init[i]).position != DialOf(init[j]).position {
        assert items[i] == init[i] && items[j] == init[j];
      }
    }
    OneMorePosition(init, last);
  }

  lemma OneMorePosition(init: seq<Item>, last: Item)
    ensures PositionSet(init + [last]) == PositionSet(init) + {DialOf(last).position}
  {
    var items := init + [last];
    forall n | n in PositionSet(items) ensures n in PositionSet(init) + {DialOf(last).position} {
      var i :| 0 <= i < |items| && DialOf(items[i]).position == n;
      if i < |init| { assert items[i] == init[i]; }
    }
    forall n | n in PositionSet(init) + {DialOf(last).position} ensures n in PositionSet(items) {
      if n in PositionSet(init) {
        var i :| 0 <= i < |init| && DialOf(init[i]).position == n;
        assert items[i] == init[i];
      } else {
        assert items[|init|] == last;
      }
    }
  }

  /** And nothing wrong with a cell of speed dials if and only if every entry has a positive position, a label
      and a destination, and no position comes twice. */
  lemma {:induction false} DialsVerdict(items: seq<Item>)
    ensures ReadDials(items).problems == [] <==> GoodDials(items)
    ensures GoodDials(items) ==>
              ReadDials(items).plans == DialsOf(items) && ReadDials(items).seen == PositionSet(items)
  {
    if items != [] {
      var init, last := items[..|items| - 1], items[|items| - 1];
      assert items == init + [last];
      DialsVerdict(init);
      OneMoreDial(init, last);
      ReadDialAppends(ReadDials(init), last);
    }
  }

  lemma ReadDialAppends(s: DialState, item: Item)
    ensures var next := ReadDial(s, item);
            && (next.problems == [] <==>
                  s.problems == [] && GoodDial(item.parts) && DialOf(item).position !in s.seen)
            && (next.problems == [] ==>
                  next.plans == s.plans + [DialOf(item)] && next.seen == s.seen + {DialOf(item).position})
  {
    NothingAdded(s.problems, [DialMalformed(item.entry)]);
  }

  // ----- MAC addresses -----------------------------------------------------------------------------------------------

  predicate Separator(c: char) { IsSpace(c) || c == ':' || c == '.' || c == '-' }

  /** A character written for this hexadecimal digit: itself, or its small letter. */
  predicate WrittenFor(c: char, digit: char) {
    c == digit || ('A' <= digit <= 'F' && c as int == digit as int + 32)
  }

  /** The text is the address with separators anywhere, in any case. */
  predicate Spells(text: string, mac: string) {
    if text == "" then mac == ""
    else if Separator(text[0]) then Spells(text[1..], mac)
    else mac != "" && WrittenFor(text[0], mac[0]) && Spells(text[1..], mac[1..])
  }

  predicate HexDigits(mac: string) { forall c | c in mac :: '0' <= c <= '9' || 'A' <= c <= 'F' }

  predicate StartsSep(text: string) {
    |text| >= 3 && text[0] in {'S', 's'} && text[1] in {'E', 'e'} && text[2] in {'P', 'p'}
  }

  /** The cell names this address: twelve digits, with SEP before them or not. */
  predicate NamesMac(cell: string, mac: string) {
    var text := Strip(cell);
    |mac| == 12 && HexDigits(mac) && Spells(if StartsSep(text) then text[3..] else text, mac)
  }

  lemma {:induction false} SpellsIs(text: string, mac: string)
    requires HexDigits(mac)
    ensures Spells(text, mac) <==> WithoutSeparators(Upper(text)) == mac
  {
    if text != "" {
      assert Upper(text)[1..] == Upper(text[1..]);
      if Separator(text[0]) {
        SpellsIs(text[1..], mac);
      } else {
        SeparatorsAreNoLetters(text[0]);
        var rest := WithoutSeparators(Upper(text[1..]));
        assert WithoutSeparators(Upper(text)) == [UpperChar(text[0])] + rest;
        if mac != "" {
          assert mac[0] in mac;
          forall c | c in mac[1..] ensures c in mac { }
          SpellsIs(text[1..], mac[1..]);
          assert [mac[0]] + mac[1..] == mac;
          FirstAndRest(UpperChar(text[0]), rest, mac);
        }
      }
    }
  }

  lemma FirstAndRest(c: char, rest: string, mac: string)
    requires mac != ""
    ensures [c] + rest == mac <==> c == mac[0] && rest == mac[1..]
  {
    assert ([c] + rest)[0] == c && ([c] + rest)[1..] == rest;
  }

  lemma SeparatorsAreNoLetters(c: char)
    ensures Separator(UpperChar(c)) <==> Separator(c)
  {
  }

  lemma UpperStartsSep(text: string)
    ensures StartsSep(text) <==> "SEP" <= Upper(text)
    ensures |text| >= 3 ==> Upper(text)[3..] == Upper(text[3..])
  {
    var upper := Upper(text);
    if |text| >= 3 {
      assert upper[0] == UpperChar(text[0]) && upper[1] == UpperChar(text[1]) && upper[2] == UpperChar(text[2]);
      assert "SEP" <= upper <==> upper[..3] == "SEP";
      assert upper[..3] == [upper[0], upper[1], upper[2]];
      assert "SEP" == ['S', 'E', 'P'];
    }
  }

  /** The address of a row is the one that its cell names, if it names one. */
  lemma MacIsNamed(row: Row, mac: string)
    ensures MacOf(row) == Some(mac) <==> NamesMac(row.mac, mac)
  {
    var text := Strip(row.mac);
    UpperStartsSep(text);
    if HexDigits(mac) { SpellsIs(if StartsSep(text) then text[3..] else text, mac); }
  }

  // ----- rows --------------------------------------------------------------------------------------------------------

  /** Some earlier row names this address, accepted or not. */
  predicate NamedBefore(rows: seq<Row>, k: nat, mac: string)
    requires k <= |rows|
  {
    exists j :: 0 <= j < k && NamesMac(rows[j].mac, mac)
  }

  /** A word for yes or for no, in any case. */
  predicate YesWord(s: string) {
    SameButCase(s, "1") || SameButCase(s, "true") || SameButCase(s, "t") || SameButCase(s, "yes") || SameButCase(s, "y")
    || SameButCase(s, "enabled") || SameButCase(s, "active")
  }

  predicate NoWord(s: string) {
    SameButCase(s, "0") || SameButCase(s, "false") || SameButCase(s, "f") || SameButCase(s, "no") || SameButCase(s, "n")
    || SameButCase(s, "disabled") || SameButCase(s, "inactive")
  }

  function ModelFor(row: Row, mac: string, lookups: Lookups): string {
    if Strip(row.model) != "" then Strip(row.model)
    else if mac in lookups.phones then lookups.phones[mac].model
    else "CP-9971"
  }

  function ActiveFor(row: Row, mac: string, lookups: Lookups): bool {
    var text := Strip(row.active);
    if text == "" then (if mac in lookups.phones then lookups.phones[mac].active else true) else YesWord(text)
  }

  function ExtensionsAt(row: Row, lookups: Lookups): set<string> {
    var slug := Strip(row.location);
    if slug in lookups.extensions then lookups.extensions[slug] else {}
  }

  /** Everything is right with row `k`, for the address it names. */
  predicate RowIsGood(rows: seq<Row>, k: nat, mac: string, lookups: Lookups)
    requires k < |rows|
  {
    var row := rows[k];
    && Strip(row.location) != "" && Strip(row.location) in lookups.locations
    && NamesMac(row.mac, mac) && !NamedBefore(rows, k, mac)
    && ModelFor(row, mac, lookups) in lookups.models
    && GoodLines(Items(row.lines), Some(ExtensionsAt(row, lookups))) && GoodDials(Items(row.dials))
    && var active := Strip(row.active); active == "" || YesWord(active) || NoWord(active)
  }

  /** What the row comes to, part by part, for the address it names. */
  lemma PartsOfRow(row: Row, mac: string, lookups: Lookups)
    requires MacOf(row) == Some(mac)
    ensures LocationProblems(row, lookups) == [] <==>
              Strip(row.location) != "" && Strip(row.location) in lookups.locations
    ensures Strip(row.location) != "" ==> KnownExtensions(row, lookups) == Some(ExtensionsAt(row, lookups))
    ensures ModelOf(row, lookups) == ModelFor(row, mac, lookups)
    ensures ActiveOf(row, lookups).0 == ActiveFor(row, mac, lookups) || ActiveOf(row, lookups).1 != []
    ensures var active := Strip(row.active);
            ActiveOf(row, lookups).1 == [] <==> active == "" || YesWord(active) || NoWord(active)
  {
    ActivePart(row, mac, lookups);
  }

  lemma ActivePart(row: Row, mac: string, lookups: Lookups)
    requires MacOf(row) == Some(mac)
    ensures ActiveOf(row, lookups).0 == ActiveFor(row, mac, lookups) || ActiveOf(row, lookups).1 != []
    ensures var active := Strip(row.active);
            ActiveOf(row, lookups).1 == [] <==> active == "" || YesWord(active) || NoWord(active)
  {
    YesAndNo(Strip(row.active));
  }

  lemma YesAndNo(active: string)
    ensures YesWord(active) <==> Lower(active) in TRUE_VALUES
    ensures NoWord(active) <==> Lower(active) in FALSE_VALUES
    ensures Lower(active) == "" <==> active == ""
  {
    assert |Lower(active)| == |active|;
    AnyCase(active, "1"); AnyCase(active, "true"); AnyCase(active, "t"); AnyCase(active, "yes"); AnyCase(active, "y");
    AnyCase(active, "enabled"); AnyCase(active, "active");
    AnyCase(active, "0"); AnyCase(active, "false"); AnyCase(active, "f"); AnyCase(active, "no"); AnyCase(active, "n");
    AnyCase(active, "disabled"); AnyCase(active, "inactive");
  }

  lemma AnyCase(s: string, word: string)
    requires forall c | c in word :: !('A' <= c <= 'Z')
    ensures Lower(s) == word <==> SameButCase(s, word)
  {
    LowerForgetsCase(s, word);
    forall i | 0 <= i < |word| ensures Lower(word)[i] == word[i] { assert word[i] in word; }
    assert Lower(word) == word;
  }

  /** With the address named, everything is right with the row exactly when no part has a problem. */
  lemma GoodIsNoProblem(rows: seq<Row>, k: nat, mac: string, lookups: Lookups, seen: set<string>)
    requires k < |rows| && MacOf(rows[k]) == Some(mac) && (mac in seen <==> NamedBefore(rows, k, mac))
    ensures RowIsGood(rows, k, mac, lookups) <==> Problems(rows[k], lookups, seen) == []
  {
    var row := rows[k];
    MacIsNamed(row, mac);
    MacProblemsMean(row, seen);
    PartsOfRow(row, mac, lookups);
    ProblemsByPart(row, lookups, seen);
    LinesVerdict(Items(row.lines), KnownExtensions(row, lookups));
    DialsVerdict(Items(row.dials));
  }

  /** A data row becomes a plan if and only if everything is right with it. */
  lemma RowVerdict(rows: seq<Row>, lookups: Lookups, k: nat)
    requires k < |rows|
    ensures PlansRow(Imported(rows, lookups).plans, k + 2) <==> exists mac :: RowIsGood(rows, k, mac, lookups)
  {
    EachRowOnce(rows, lookups, k);
    var row, seen := rows[k], Imported(rows[..k], lookups).seen;
    if MacOf(row).Some? {
      var mac := MacOf(row).value;
      SeenIsNamed(rows, k, mac, seen);
      GoodIsNoProblem(rows, k, mac, lookups, seen);
    } else {
      MacProblemsMean(row, seen);
      NoMacIsAProblem(row, lookups, seen);
    }
    forall mac | RowIsGood(rows, k, mac, lookups) ensures MacOf(row) == Some(mac) { MacIsNamed(row, mac); }
  }

  lemma SeenIsNamed(rows: seq<Row>, k: nat, mac: string, seen: set<string>)
    requires k <= |rows| && (mac in seen <==> SeenBefore(rows, k, mac, MacOf))
    ensures mac in seen <==> NamedBefore(rows, k, mac)
  {
    forall j | 0 <= j < k ensures MacOf(rows[j]) == Some(mac) <==> NamesMac(rows[j].mac, mac) {
      MacIsNamed(rows[j], mac);
    }
  }

  /** Nothing is wrong exactly when nothing is wrong with any part. */
  lemma ProblemsByPart(row: Row, lookups: Lookups, seen: set<string>)
    ensures Problems(row, lookups, seen) == [] <==>
              && LocationProblems(row, lookups) == [] && MacProblems(row, seen) == []
              && ModelOf(row, lookups) in lookups.models
              && ReadLines(Items(row.lines), KnownExtensions(row, lookups)).problems == []
              && ReadDials(Items(row.dials)).problems == [] && ActiveOf(row, lookups).1 == []
  {
    SixNothing(LocationProblems(row, lookups), MacProblems(row, seen),
               if ModelOf(row, lookups) !in lookups.models then [ModelInvalid(ModelOf(row, lookups))] else [],
               ReadLines(Items(row.lines), KnownExtensions(row, lookups)).problems,
               ReadDials(Items(row.dials)).problems,
               ActiveOf(row, lookups).1);
  }

  lemma SixNothing(a: seq<Problem>, b: seq<Problem>, c: seq<Problem>, d: seq<Problem>, e: seq<Problem>, f: seq<Problem>)
    ensures a + b + c + d + e + f == [] <==> a == [] && b == [] && c == [] && d == [] && e == [] && f == []
  {
    assert |a + b + c + d + e + f| == |a| + |b| + |c| + |d| + |e| + |f|;
  }

  /** And the plan says what the row says, with the phone's own or the default values for what it leaves open. */
  lemma PlanSays(rows: seq<Row>, lookups: Lookups, k: nat, mac: string)
    requires k < |rows| && RowIsGood(rows, k, mac, lookups)
    ensures var row := rows[k]; var seen := Imported(rows[..k], lookups).seen;
            Judge(row, k + 2, seen, lookups)
              == Ok(Plan(k + 2, mac, mac in lookups.phones, Strip(row.location), ModelFor(row, mac, lookups),
                         Strip(row.caption), ActiveFor(row, mac, lookups), LinesOf(Items(row.lines)),
                         DialsOf(Items(row.dials))))
  {
    var row, seen := rows[k], Imported(rows[..k], lookups).seen;
    EachRowOnce(rows, lookups, k);
    MacIsNamed(row, mac);
    SeenIsNamed(rows, k, mac, seen);
    GoodIsNoProblem(rows, k, mac, lookups, seen);
    PlanOfGood(rows, k, mac, lookups);
  }

  lemma PlanOfGood(rows: seq<Row>, k: nat, mac: string, lookups: Lookups)
    requires k < |rows| && RowIsGood(rows, k, mac, lookups) && MacOf(rows[k]) == Some(mac)
    ensures var row := rows[k];
            PlanOf(row, k + 2, lookups, mac)
              == Plan(k + 2, mac, mac in lookups.phones, Strip(row.location), ModelFor(row, mac, lookups),
                      Strip(row.caption), ActiveFor(row, mac, lookups), LinesOf(Items(row.lines)),
                      DialsOf(Items(row.dials)))
  {
    var row := rows[k];
    PartsOfRow(row, mac, lookups);
    LinesVerdict(Items(row.lines), KnownExtensions(row, lookups));
    DialsVerdict(Items(row.dials));
  }
}
