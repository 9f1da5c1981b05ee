/** The cells of the phone CSV that hold lists: how line appearances and speed dials are printed, and how
    an import parses them. */
module PhoneCells {
  import opened Wrappers
  import opened PyStrings

  datatype LinePlan = LinePlan(index: int, extension: string, caption: string)

  datatype DialPlan = DialPlan(position: int, caption: string, destination: string)

  datatype Problem =
    | LocationMissing | LocationUnknown(slug: string)
    | MacMissing | MacInvalid | MacDuplicate(mac: string)
    | ModelInvalid(model: string) | ActiveInvalid
    | EntryMalformed(entry: string) | NumberMissing | NotPositive(text: string)
    | LineDuplicate(index: int) | ExtensionUnknown(extension: string)
    | DialMalformed(entry: string) | PositionDuplicate(position: int)

  // ----- numbers -----------------------------------------------------------------------------------------------

  /** Digits, with single underscores between them: what `int` takes after a sign. */
  predicate IsNumeral(s: string) {
    s != "" && IsDigit(s[|s| - 1])
    && (|s| == 1 || IsNumeral(s[..|s| - 1]) || (s[|s| - 2] == '_' && IsNumeral(s[..|s| - 2])))
  }

  function NumeralValue(s: string): nat
    requires IsNumeral(s)
  {
    if |s| == 1 then DigitValue(s[0])
    else if IsNumeral(s[..|s| - 1]) then 10 * NumeralValue(s[..|s| - 1]) + DigitValue(s[|s| - 1])
    else 10 * NumeralValue(s[..|s| - 2]) + DigitValue(s[|s| - 1])
  }

  /** `int(s)` of stripped text. */
  function IntOf(s: string): Option<int> {
    if s != "" && s[0] in {'+', '-'} then
      if IsNumeral(s[1..]) then
        var n: int := NumeralValue(s[1..]);
        Some(if s[0] == '-' then -n else n)
      else None
    else if IsNumeral(s) then Some(NumeralValue(s)) else None
  }

  /** `_parse_positive_int`. */
  function PositiveOf(value: string): Result<int, Problem> {
    var text := Strip(value);
    if text == "" then Err(NumberMissing)
    else
      var n := IntOf(text);
      if n.None? || n.value < 1 then Err(NotPositive(text)) else Ok(n.value)
  }

  lemma {:induction false} DecimalIsNumeral(n: nat)
    ensures IsNumeral(Decimal(n)) && NumeralValue(Decimal(n)) == n
  {
    if n >= 10 {
      DecimalIsNumeral(n / 10);
      assert Decimal(n)[..|Decimal(n)| - 1] == Decimal(n / 10);
    }
  }

  lemma DecimalIsTrimmed(n: nat)
    ensures Trimmed(Decimal(n)) && '|' !in Decimal(n) && ':' !in Decimal(n)
  {
    var d := Decimal(n);
    assert d[0] in d && d[|d| - 1] in d;
    forall c | c in d ensures c != '|' && c != ':' && !IsSpace(c) { assert IsDigit(c); }
  }

  /** `str(n)` */
  function Number(n: int): string { if n < 0 then "-" + Decimal(-n) else Decimal(n) }

  lemma IntReadsBack(n: nat)
    ensures IntOf(Decimal(n)) == Some(n)
  {
    DecimalIsNumeral(n);
    assert Decimal(n)[0] in Decimal(n);
  }

  lemma PositiveIs(value: string, text: string, n: int)
    requires Strip(value) == text && text != "" && IntOf(text) == Some(n) && n >= 1
    ensures PositiveOf(value) == Ok(n)
  {
  }

  /** A positive number printed parses to itself. */
  lemma PositiveReadsBack(n: int)
    requires n >= 1
    ensures PositiveOf(Number(n)) == Ok(n)
  {
    DecimalIsTrimmed(n);
    IntReadsBack(n);
    StripsToItself(Decimal(n));
    PositiveIs(Decimal(n), Decimal(n), n);
  }

  // ----- splitting ------------------------------------------------------------------------------------------------

  function IndexOf(s: string, c: char): (n: nat)
    ensures n <= |s| && (n < |s| ==> s[n] == c)
  {
    if s == "" || s[0] == c then 0 else 1 + IndexOf(s[1..], c)
  }

  /** `s.split(c)` */
  function SplitAll(s: string, c: char): seq<string>
    decreases |s|
  {
    var n := IndexOf(s, c);
    if n == |s| then [s] else [s[..n]] + SplitAll(s[n + 1..], c)
  }

  /** `s.split(c, k)` */
  function SplitAtMost(s: string, c: char, k: nat): seq<string>
    decreases k
  {
    var n := IndexOf(s, c);
    if k == 0 || n == |s| then [s] else [s[..n]] + SplitAtMost(s[n + 1..], c, k - 1)
  }

  function NonEmpty(parts: seq<string>): seq<string> {
    if parts == [] then []
    else (if Strip(parts[0]) == "" then [] else [Strip(parts[0])]) + NonEmpty(parts[1..])
  }

  /** `_split_entries`. */
  function Entries(cell: string): seq<string> { NonEmpty(SplitAll(cell, '|')) }

  function StripEach(parts: seq<string>): seq<string> {
    if parts == [] then [] else [Strip(parts[0])] + StripEach(parts[1..])
  }

  /** `[part.strip() for part in entry.split(":", 2)]` */
  function Parts(entry: string): seq<string> { StripEach(SplitAtMost(entry, ':', 2)) }

  datatype Item = Item(entry: string, parts: seq<string>)

  function ItemsOf(entries: seq<string>): seq<Item> {
    seq(|entries|, i requires 0 <= i < |entries| => Item(entries[i], Parts(entries[i])))
  }

  /** The entries of a cell, each with its parts. */
  function Items(cell: string): seq<Item> { ItemsOf(Entries(cell)) }

  lemma {:induction false} IndexAfter(a: string, c: char, b: string)
    requires c !in a
    ensures IndexOf(a + [c] + b, c) == |a|
  {
    if a == "" {
      assert a + [c] + b == [c] + b;
    } else {
      assert (a + [c] + b)[1..] == a[1..] + [c] + b;
      IndexAfter(a[1..], c, b);
    }
  }

  lemma {:induction false} IndexMissing(a: string, c: char)
    requires c !in a
    ensures IndexOf(a, c) == |a|
  {
    if a != "" { IndexMissing(a[1..], c); }
  }

  lemma SplitsOnce(a: string, c: char, b: string, k: nat)
    requires c !in a
    ensures SplitAll(a + [c] + b, c) == [a] + SplitAll(b, c)
    ensures k > 0 ==> SplitAtMost(a + [c] + b, c, k) == [a] + SplitAtMost(b, c, k - 1)
  {
    IndexAfter(a, c, b);
    assert (a + [c] + b)[..|a|] == a && (a + [c] + b)[|a| + 1..] == b;
  }

  // ----- line appearances -------------------------------------------------------------------------------------------

  datatype LineState = LineState(plans: seq<LinePlan>, seen: set<int>, problems: seq<Problem>)

  predicate LineWellFormed(parts: seq<string>) {
    |parts| >= 2 && parts[0] != "" && parts[1] != ""
  }

  /** What one well-formed entry does; `known` is None where there is no location to check against. */
  function TakeLine(s: LineState, parts: seq<string>, known: Option<set<string>>): LineState
    requires LineWellFormed(parts)
  {
    match PositiveOf(parts[0])
    case Err(problem) => s.(problems := s.problems + [problem])
    case Ok(index) =>
      LineState(s.plans + [LinePlan(index, parts[1], if |parts| > 2 then parts[2] else "")], s.seen + {index},
                s.problems + (if index in s.seen then [LineDuplicate(index)] else [])
                + (if known.Some? && parts[1] !in known.value then [ExtensionUnknown(parts[1])] else []))
  }

  function ReadLine(s: LineState, item: Item, known: Option<set<string>>): LineState {
    if LineWellFormed(item.parts) then TakeLine(s, item.parts, known)
    else s.(problems := s.problems + [EntryMalformed(item.entry)])
  }

  function ReadLines(items: seq<Item>, known: Option<set<string>>): LineState {
    if items == [] then LineState([], {}, [])
    else ReadLine(ReadLines(items[..|items| - 1], known), items[|items| - 1], known)
  }

  /** `_parse_line_appearances`. */
  method ParseLineAppearances(cell: string, known: Option<set<string>>)
      returns (plans: seq<LinePlan>, problems: seq<Problem>)
    ensures plans == ReadLines(Items(cell), known).plans && problems == ReadLines(Items(cell), known).problems
  {
    plans, problems := [], [];
    var seen: set<int> := {};
    var items := Items(cell);
    for k := 0 to |items|
      invariant LineState(plans, seen, problems) == ReadLines(items[..k], known)
    {
      ReadLinesNext(items, k, known);
      plans, seen, problems := ParseLine(plans, seen, problems, items[k], known);
    }
    assert items[..|items|] == items;
  }

  lemma ReadLinesNext(items: seq<Item>, k: nat, known: Option<set<string>>)
    requires k < |items|
    ensures ReadLines(items[..k + 1], known) == ReadLine(ReadLines(items[..k], known), items[k], known)
  {
    assert items[..k + 1][..k] == items[..k];
  }

  /** One turn of the loop. */
  method ParseLine(plans: seq<LinePlan>, seen: set<int>, problems: seq<Problem>, item: Item, known: Option<set<string>>)
    returns (plans': seq<LinePlan>, seen': set<int>, problems': seq<Problem>)
    ensures LineState(plans', seen', problems') == ReadLine(LineState(plans, seen, problems), item, known)
  {
    plans', seen', problems' := plans, seen, problems;
    var parts := item.parts;
    if !LineWellFormed(parts) { return plans, seen, problems + [EntryMalformed(item.entry)]; }
    var index := PositiveOf(parts[0]);
    if index.Err? { return plans, seen, problems + [index.error]; }
    if index.value in seen { problems' := problems' + [LineDuplicate(index.value)]; }
    seen' := seen' + {index.value};
    if known.Some? && parts[1] !in known.value { problems' := problems' + [ExtensionUnknown(parts[1])]; }
    assert problems' == problems + (if index.value in seen then [LineDuplicate(index.value)] else [])
                        + (if known.Some? && parts[1] !in known.value then [ExtensionUnknown(parts[1])] else []);
    plans' := plans' + [LinePlan(index.value, parts[1], if |parts| > 2 then parts[2] else "")];
  }

  /** What the export prints for a line. */
  function LineText(p: LinePlan): string { Number(p.index) + ":" + p.extension + ":" + p.caption }

  predicate LinePrintable(p: LinePlan) {
    && p.index >= 1
    && p.extension != "" && Trimmed(p.extension) && '|' !in p.extension && ':' !in p.extension
    && Trimmed(p.caption) && '|' !in p.caption
  }

  predicate DistinctIndexes(plans: seq<LinePlan>) {
    forall i, j | 0 <= i < j < |plans| :: plans[i].index != plans[j].index
  }

  lemma Regroup(a: string, b: string, c: string)
    ensures a + ":" + b + ":" + c == a + [':'] + (b + [':'] + c)
  {
  }

  lemma PartsOf(a: string, b: string, c: string)
    requires ':' !in a && ':' !in b && Trimmed(a) && Trimmed(b) && Trimmed(c)
    ensures Parts(a + ":" + b + ":" + c) == [a, b, c]
  {
    Regroup(a, b, c);
    SplitsInThree(a, b, c);
    StripThree(a, b, c);
  }

  lemma SplitsInThree(a: string, b: string, c: string)
    requires ':' !in a && ':' !in b
    ensures SplitAtMost(a + [':'] + (b + [':'] + c), ':', 2) == [a] + ([b] + [c])
  {
    SplitsOnce(a, ':', b + [':'] + c, 2);
    SplitsOnce(b, ':', c, 1);
    NotSplit(c);
  }

  lemma NotSplit(c: string)
    ensures SplitAtMost(c, ':', 0) == [c]
  {
  }

  lemma StripThree(a: string, b: string, c: string)
    requires Trimmed(a) && Trimmed(b) && Trimmed(c)
    ensures StripEach([a] + ([b] + [c])) == [a, b, c]
  {
    StripOne(a, [b] + [c]);
    StripOne(b, [c]);
    StripOne(c, []);
    assert [c] + [] == [c];
  }

  lemma StripOne(a: string, rest: seq<string>)
    requires Trimmed(a)
    ensures StripEach([a] + rest) == [a] + StripEach(rest)
  {
    assert ([a] + rest)[1..] == rest;
  }

  predicate EntryPlain(entry: string) { entry != "" && Trimmed(entry) && '|' !in entry }

  /** Three printed fields make an entry that nothing is stripped from and no bar splits. */
  lemma EntryStands(n: nat, b: string, c: string)
    requires n >= 0 && '|' !in b && '|' !in c && Trimmed(c)
    ensures EntryPlain(Number(n) + ":" + b + ":" + c)
  {
    DecimalIsTrimmed(n);
    var entry := Decimal(n) + ":" + b + ":" + c;
    assert entry[0] == Decimal(n)[0];
    if c == "" { assert entry[|entry| - 1] == ':'; } else { assert entry[|entry| - 1] == c[|c| - 1]; }
  }

  function JoinBars(entries: seq<string>): string {
    if entries == [] then "" else if |entries| == 1 then entries[0] else entries[0] + "|" + JoinBars(entries[1..])
  }

  lemma {:induction false} EntriesReadBack(entries: seq<string>)
    requires forall e | e in entries :: EntryPlain(e)
    ensures Entries(JoinBars(entries)) == entries
  {
    if entries == [] {
      assert SplitAll("", '|') == [""];
      KeepBlank([]);
    } else if |entries| == 1 {
      var e := entries[0];
      assert EntryPlain(e);
      IndexMissing(e, '|');
      KeepEntry(e, []);
      assert [e] + [] == [e];
    } else {
      var e := entries[0];
      assert EntryPlain(e);
      assert JoinBars(entries) == e + ['|'] + JoinBars(entries[1..]);
      SplitsOnce(e, '|', JoinBars(entries[1..]), 0);
      EntriesReadBack(entries[1..]);
      KeepEntry(e, SplitAll(JoinBars(entries[1..]), '|'));
    }
  }

  lemma KeepBlank(rest: seq<string>)
    ensures NonEmpty([""] + rest) == NonEmpty(rest)
  {
    assert ([""] + rest)[1..] == rest;
    assert Strip("") == "";
  }

  lemma KeepEntry(e: string, rest: seq<string>)
    requires EntryPlain(e)
    ensures NonEmpty([e] + rest) == [e] + NonEmpty(rest)
  {
    assert ([e] + rest)[1..] == rest;
    assert Strip(e) == e;
  }

  function LineTexts(plans: seq<LinePlan>): seq<string> {
    seq(|plans|, i requires 0 <= i < |plans| => LineText(plans[i]))
  }

  /** The indexes of the first `k` plans. */
  function Indexes(plans: seq<LinePlan>, k: nat): set<int>
    requires k <= |plans|
  {
    if k == 0 then {} else Indexes(plans, k - 1) + {plans[k - 1].index}
  }

  lemma {:induction false} IndexIsNew(plans: seq<LinePlan>, k: nat, n: nat)
    requires DistinctIndexes(plans) && k <= n < |plans|
    ensures plans[n].index !in Indexes(plans, k)
  {
    if k > 0 { IndexIsNew(plans, k - 1, n); }
  }

  function LineFields(p: LinePlan): seq<string> { [Number(p.index), p.extension, p.caption] }

  predicate LineKnown(p: LinePlan, known: Option<set<string>>) {
    LinePrintable(p) && (known.None? || p.extension in known.value)
  }

  predicate ShowsLine(item: Item, p: LinePlan, known: Option<set<string>>) {
    item.parts == LineFields(p) && LineKnown(p, known)
  }

  /** One index at a time is enough for the proofs: this names the one they need. */
  predicate At(i: int) { true }

  predicate AllShow(items: seq<Item>, plans: seq<LinePlan>, known: Option<set<string>>) {
    |items| == |plans| && forall i {:trigger At(i)} | 0 <= i < |plans| :: ShowsLine(items[i], plans[i], known)
  }

  predicate AllNew(plans: seq<LinePlan>) {
    forall i {:trigger At(i)} | 0 <= i < |plans| :: plans[i].index !in Indexes(plans, i)
  }

  /** Items with the fields of lines, read one after the other. */
  lemma {:induction false} LinesReadBack(plans: seq<LinePlan>, items: seq<Item>, known: Option<set<string>>, k: nat)
    requires AllShow(items, plans, known) && AllNew(plans) && k <= |plans|
    ensures ReadLines(items[..k], known) == LineState(plans[..k], Indexes(plans, k), [])
  {
    if k > 0 {
      LinesReadBack(plans, items, known, k - 1);
      NextReadsBack(plans, items, known, k - 1);
    }
  }

  lemma NextReadsBack(plans: seq<LinePlan>, items: seq<Item>, known: Option<set<string>>, k: nat)
    requires AllShow(items, plans, known) && AllNew(plans) && k < |plans|
    requires ReadLines(items[..k], known) == LineState(plans[..k], Indexes(plans, k), [])
    ensures ReadLines(items[..k + 1], known) == LineState(plans[..k + 1], Indexes(plans, k + 1), [])
  {
    assert At(k);
    PrefixGrows(plans, k);
    ReadLinesNext(items, k, known);
    LineReadsBack(plans[..k], Indexes(plans, k), items[k], plans[k], known);
  }

  lemma TakesLine(s: LineState, parts: seq<string>, p: LinePlan, known: Option<set<string>>)
    requires LineWellFormed(parts) && |parts| == 3 && PositiveOf(parts[0]) == Ok(p.index) && parts[1] == p.extension
             && parts[2] == p.caption
    requires (known.None? || p.extension in known.value) && p.index !in s.seen && s.problems == []
    ensures TakeLine(s, parts, known) == LineState(s.plans + [p], s.seen + {p.index}, [])
  {
  }

  lemma LineReadsBack(before: seq<LinePlan>, seen: set<int>, item: Item, p: LinePlan, known: Option<set<string>>)
    requires ShowsLine(item, p, known) && p.index !in seen
    ensures ReadLine(LineState(before, seen, []), item, known) == LineState(before + [p], seen + {p.index}, [])
  {
    PositiveReadsBack(p.index);
    DecimalIsTrimmed(p.index);
    TakesLine(LineState(before, seen, []), item.parts, p, known);
  }

  lemma LineParts(p: LinePlan)
    requires LinePrintable(p)
    ensures Parts(LineText(p)) == LineFields(p)
  {
    DecimalIsTrimmed(p.index);
    PartsOf(Number(p.index), p.extension, p.caption);
  }

  lemma TextsShow(plans: seq<LinePlan>, known: Option<set<string>>)
    requires forall i | 0 <= i < |plans| :: LineKnown(plans[i], known)
    ensures AllShow(ItemsOf(LineTexts(plans)), plans, known)
  {
    var items := ItemsOf(LineTexts(plans));
    forall i | 0 <= i < |plans| ensures ShowsLine(items[i], plans[i], known) { LineParts(plans[i]); }
  }

  lemma DistinctAreNew(plans: seq<LinePlan>)
    requires DistinctIndexes(plans)
    ensures AllNew(plans)
  {
    forall i | 0 <= i < |plans| ensures plans[i].index !in Indexes(plans, i) { IndexIsNew(plans, i, i); }
  }

  lemma TextsArePlain(plans: seq<LinePlan>, known: Option<set<string>>)
    requires forall i | 0 <= i < |plans| :: LineKnown(plans[i], known)
    ensures forall e | e in LineTexts(plans) :: EntryPlain(e)
  {
    forall i | 0 <= i < |plans| ensures EntryPlain(LineTexts(plans)[i]) {
      EntryStands(plans[i].index, plans[i].extension, plans[i].caption);
    }
  }

  /** Line appearances printed into a cell come back as they were, without a problem. */
  lemma LineAppearancesRoundTrip(plans: seq<LinePlan>, known: Option<set<string>>)
    requires forall i | 0 <= i < |plans| :: LineKnown(plans[i], known)
    requires DistinctIndexes(plans)
    ensures ReadLines(Items(JoinBars(LineTexts(plans))), known) == LineState(plans, Indexes(plans, |plans|), [])
  {
    TextsArePlain(plans, known);
    EntriesReadBack(LineTexts(plans));
    TextsShow(plans, known);
    DistinctAreNew(plans);
    AllReadBack(plans, ItemsOf(LineTexts(plans)), known);
  }

  lemma AllReadBack(plans: seq<LinePlan>, items: seq<Item>, known: Option<set<string>>)
    requires AllShow(items, plans, known) && AllNew(plans)
    ensures ReadLines(items, known) == LineState(plans, Indexes(plans, |plans|), [])
  {
    LinesReadBack(plans, items, known, |plans|);
    WholePrefix(items);
    WholePrefix(plans);
  }

  // ----- speed dials -----------------------------------------------------------------------------------------------

  datatype DialState = DialState(plans: seq<DialPlan>, seen: set<int>, problems: seq<Problem>)

  predicate DialWellFormed(parts: seq<string>) {
    |parts| == 3 && parts[0] != "" && parts[1] != "" && parts[2] != ""
  }

  function TakeDial(s: DialState, parts: seq<string>): DialState
    requires DialWellFormed(parts)
  {
    match PositiveOf(parts[0])
    case Err(problem) => s.(problems := s.problems + [problem])
    case Ok(position) =>
      DialState(s.plans + [DialPlan(position, parts[1], parts[2])], s.seen + {position},
                s.problems + (if position in s.seen then [PositionDuplicate(position)] else []))
  }

  function ReadDial(s: DialState, item: Item): DialState {
    if DialWellFormed(item.parts) then TakeDial(s, item.parts)
    else s.(problems := s.problems + [DialMalformed(item.entry)])
  }

  function ReadDials(items: seq<Item>): DialState {
    if items == [] then DialState([], {}, [])
    else ReadDial(ReadDials(items[..|items| - 1]), items[|items| - 1])
  }

  /** `_parse_embedded_speed_dials`. */
  method ParseSpeedDials(cell: string) returns (plans: seq<DialPlan>, problems: seq<Problem>)
    ensures plans == ReadDials(Items(cell)).plans && problems == ReadDials(Items(cell)).problems
  {
    plans, problems := [], [];
    var seen: set<int> := {};
    var items := Items(cell);
    for k := 0 to |items|
      invariant DialState(plans, seen, problems) == ReadDials(items[..k])
    {
      ReadDialsNext(items, k);
      plans, seen, problems := ParseDial(plans, seen, problems, items[k]);
    }
    assert items[..|items|] == items;
  }

  lemma ReadDialsNext(items: seq<Item>, k: nat)
    requires k < |items|
    ensures ReadDials(items[..k + 1]) == ReadDial(ReadDials(items[..k]), items[k])
  {
    assert items[..k + 1][..k] == items[..k];
  }

  /** One turn of the loop. */
  method ParseDial(plans: seq<DialPlan>, seen: set<int>, problems: seq<Problem>, item: Item)
    returns (plans': seq<DialPlan>, seen': set<int>, problems': seq<Problem>)
    ensures DialState(plans', seen', problems') == ReadDial(DialState(plans, seen, problems), item)
  {
    plans', seen', problems' := plans, seen, problems;
    var parts := item.parts;
    if !DialWellFormed(parts) { return plans, seen, problems + [DialMalformed(item.entry)]; }
    var position := PositiveOf(parts[0]);
    if position.Err? { return plans, seen, problems + [position.error]; }
    if position.value in seen { problems' := problems' + [PositionDuplicate(position.value)]; }
    assert problems' == problems + (if position.value in seen then [PositionDuplicate(position.value)] else []);
    seen' := seen' + {position.value};
    plans' := plans' + [DialPlan(position.value, parts[1], parts[2])];
  }

  function DialText(p: DialPlan): string { Number(p.position) + ":" + p.caption + ":" + p.destination }

  predicate DialPrintable(p: DialPlan) {
    && p.position >= 1
    && p.caption != "" && Trimmed(p.caption) && '|' !in p.caption && ':' !in p.caption
    && p.destination != "" && Trimmed(p.destination) && '|' !in p.destination
  }

  predicate DistinctPositions(plans: seq<DialPlan>) {
    forall i, j | 0 <= i < j < |plans| :: plans[i].position != plans[j].position
  }

  function DialTexts(plans: seq<DialPlan>): seq<string> {
    seq(|plans|, i requires 0 <= i < |plans| => DialText(plans[i]))
  }

  /** The positions of the first `k` plans. */
  function Positions(plans: seq<DialPlan>, k: nat): set<int>
    requires k <= |plans|
  {
    if k == 0 then {} else Positions(plans, k - 1) + {plans[k - 1].position}
  }

  lemma {:induction false} PositionIsNew(plans: seq<DialPlan>, k: nat, n: nat)
    requires DistinctPositions(plans) && k <= n < |plans|
    ensures plans[n].position !in Positions(plans, k)
  {
    if k > 0 { PositionIsNew(plans, k - 1, n); }
  }

  lemma TakesDial(s: DialState, parts: seq<string>, p: DialPlan)
    requires DialWellFormed(parts) && PositiveOf(parts[0]) == Ok(p.position) && parts[1] == p.caption
             && parts[2] == p.destination
    requires p.position !in s.seen && s.problems == []
    ensures TakeDial(s, parts) == DialState(s.plans + [p], s.seen + {p.position}, [])
  {
  }

  function DialFields(p: DialPlan): seq<string> { [Number(p.position), p.caption, p.destination] }

  predicate ShowsDial(item: Item, p: DialPlan) { item.parts == DialFields(p) && DialPrintable(p) }

  lemma DialReadsBack(before: seq<DialPlan>, seen: set<int>, item: Item, p: DialPlan)
    requires ShowsDial(item, p) && p.position !in seen
    ensures ReadDial(DialState(before, seen, []), item) == DialState(before + [p], seen + {p.position}, [])
  {
    PositiveReadsBack(p.position);
    DecimalIsTrimmed(p.position);
    TakesDial(DialState(before, seen, []), item.parts, p);
  }

  lemma DialParts(p: DialPlan)
    requires DialPrintable(p)
    ensures Parts(DialText(p)) == DialFields(p)
  {
    DecimalIsTrimmed(p.position);
    PartsOf(Number(p.position), p.caption, p.destination);
  }

  predicate AllShowDials(items: seq<Item>, plans: seq<DialPlan>) {
    |items| == |plans| && forall i {:trigger At(i)} | 0 <= i < |plans| :: ShowsDial(items[i], plans[i])
  }

  predicate AllNewDials(plans: seq<DialPlan>) {
    forall i {:trigger At(i)} | 0 <= i < |plans| :: plans[i].position !in Positions(plans, i)
  }

  lemma {:induction false} DialsReadBack(plans: seq<DialPlan>, items: seq<Item>, k: nat)
    requires AllShowDials(items, plans) && AllNewDials(plans) && k <= |plans|
    ensures ReadDials(items[..k]) == DialState(plans[..k], Positions(plans, k), [])
  {
    if k > 0 {
      DialsReadBack(plans, items, k - 1);
      NextDialReadsBack(plans, items, k - 1);
    }
  }

  lemma NextDialReadsBack(plans: seq<DialPlan>, items: seq<Item>, k: nat)
    requires AllShowDials(items, plans) && AllNewDials(plans) && k < |plans|
    requires ReadDials(items[..k]) == DialState(plans[..k], Positions(plans, k), [])
    ensures ReadDials(items[..k + 1]) == DialState(plans[..k + 1], Positions(plans, k + 1), [])
  {
    assert At(k);
    PrefixGrows(plans, k);
    ReadDialsNext(items, k);
    DialReadsBack(plans[..k], Positions(plans, k), items[k], plans[k]);
  }

  lemma AllDialsReadBack(plans: seq<DialPlan>, items: seq<Item>)
    requires AllShowDials(items, plans) && AllNewDials(plans)
    ensures ReadDials(items) == DialState(plans, Positions(plans, |plans|), [])
  {
    DialsReadBack(plans, items, |plans|);
    WholePrefix(items);
    WholePrefix(plans);
  }

  lemma DialTextsShow(plans: seq<DialPlan>)
    requires forall i | 0 <= i < |plans| :: DialPrintable(plans[i])
    ensures AllShowDials(ItemsOf(DialTexts(plans)), plans)
  {
    var items := ItemsOf(DialTexts(plans));
    forall i | 0 <= i < |plans| ensures ShowsDial(items[i], plans[i]) { DialParts(plans[i]); }
  }

  lemma DistinctDialsAreNew(plans: seq<DialPlan>)
    requires DistinctPositions(plans)
    ensures AllNewDials(plans)
  {
    forall i | 0 <= i < |plans| ensures plans[i].position !in Positions(plans, i) { PositionIsNew(plans, i, i); }
  }

  lemma DialTextsArePlain(plans: seq<DialPlan>)
    requires forall i | 0 <= i < |plans| :: DialPrintable(plans[i])
    ensures forall e | e in DialTexts(plans) :: EntryPlain(e)
  {
    forall i | 0 <= i < |plans| ensures EntryPlain(DialTexts(plans)[i]) {
      EntryStands(plans[i].position, plans[i].caption, plans[i].destination);
    }
  }

  /** Speed dials printed into a cell come back as they were, without a problem. */
  lemma SpeedDialsRoundTrip(plans: seq<DialPlan>)
    requires forall i | 0 <= i < |plans| :: DialPrintable(plans[i])
    requires DistinctPositions(plans)
    ensures ReadDials(Items(JoinBars(DialTexts(plans)))) == DialState(plans, Positions(plans, |plans|), [])
  {
    DialTextsArePlain(plans);
    EntriesReadBack(DialTexts(plans));
    DialTextsShow(plans);
    DistinctDialsAreNew(plans);
    AllDialsReadBack(plans, ItemsOf(DialTexts(plans)));
  }
}
