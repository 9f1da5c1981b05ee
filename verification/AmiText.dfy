/** The text of the Asterisk Manager Interface: how messages are printed, framed and parsed. */
module AmiText {
  import opened Wrappers
  import opened PyStrings

  /** A parsed message in the order its keys first appeared: one value, or, for a repeated key, the list of
      its values. */
  datatype Field = Field(key: string, values: seq<string>)

  type Message = seq<Field>

  // ----- parsing ----------------------------------------------------------------------------------------------

  /** `raw.replace("\r\n", "\n").replace("\r", "\n")` */
  function Normalised(raw: string): string {
    if raw == "" then ""
    else if raw[0] == '\r' then
      ['\n'] + Normalised(if |raw| > 1 && raw[1] == '\n' then raw[2..] else raw[1..])
    else [raw[0]] + Normalised(raw[1..])
  }

  /** `text.split("\n")` */
  function Lines(text: string): (r: seq<string>)
    ensures r != []
  {
    if text == "" then [""]
    else
      var rest := Lines(text[1..]);
      if text[0] == '\n' then [""] + rest else [[text[0]] + rest[0]] + rest[1..]
  }

  /** `line.split(":", 1)`, stripped, when the line has a colon. */
  function KeyAndValue(line: string): Option<(string, string)> {
    var n := ColonAt(line);
    if n == |line| then None else Some((Strip(line[..n]), Strip(line[n + 1..])))
  }

  function ColonAt(line: string): (n: nat)
    ensures n <= |line| && (n < |line| ==> line[n] == ':')
  {
    if line == "" || line[0] == ':' then 0 else 1 + ColonAt(line[1..])
  }

  /** The message with one more value of a key: at its end, or at the end of that key's list. */
  function Added(m: Message, key: string, value: string): Message {
    if m == [] then [Field(key, [value])]
    else if m[0].key == key then [Field(key, m[0].values + [value])] + m[1..]
    else [m[0]] + Added(m[1..], key, value)
  }

  datatype State = State(messages: seq<Message>, current: Message)

  function ReadLine(s: State, line: string): State {
    if line == "" then (if s.current == [] then s else State(s.messages + [s.current], []))
    else
      var kv := KeyAndValue(line);
      if kv.None? then s else s.(current := Added(s.current, kv.value.0, kv.value.1))
  }

  function ReadLines(s: State, lines: seq<string>): State
    decreases |lines|
  {
    if lines == [] then s else ReadLines(ReadLine(s, lines[0]), lines[1..])
  }

  function Finished(s: State): seq<Message> {
    if s.current == [] then s.messages else s.messages + [s.current]
  }

  const NOTHING := State([], [])

  function Parsed(raw: string): seq<Message> { Finished(ReadLines(NOTHING, Lines(Normalised(raw)))) }

  /** `parse_ami_messages`. */
  method ParseAmiMessages(raw: string) returns (messages: seq<Message>)
    ensures messages == Parsed(raw)
  {
    messages := [];
    var current: Message := [];
    var lines := Lines(Normalised(raw));
    for k := 0 to |lines|
      invariant ReadLines(NOTHING, lines) == ReadLines(State(messages, current), lines[k..])
    {
      var line := lines[k];
      assert lines[k..][0] == line && lines[k..][1..] == lines[k + 1..];
      if line == "" {
        if current != [] {
          messages := messages + [current];
          current := [];
        }
      } else {
        var kv := KeyAndValue(line);
        if kv.Some? { current := Added(current, kv.value.0, kv.value.1); }
      }
    }
    if current != [] { messages := messages + [current]; }
  }

  /** A line is read up to its first colon, and what stands around key and value does not matter. */
  lemma SpacedField(s: State, l: string, key: string, r: string, before: string, value: string, after: string)
    requires AllSpace(l) && AllSpace(r) && AllSpace(before) && AllSpace(after)
    requires Trimmed(key) && Trimmed(value) && ':' !in key
    ensures ReadLine(s, l + key + r + [':'] + (before + value + after)) == s.(current := Added(s.current, key, value))
  {
    var line := l + key + r + [':'] + (before + value + after);
    ColonAfter(l + key + r, before + value + after);
    assert line[..|l + key + r|] == l + key + r && line[|l + key + r| + 1..] == before + value + after;
    StripIs(l, key, r);
    StripIs(before, value, after);
  }

  /** A line without a colon says nothing, and an empty line only ends a message that has begun. */
  lemma OtherLines(s: State, line: string)
    requires ':' !in line
    ensures ReadLine(s, line) == if line == "" && s.current != [] then State(s.messages + [s.current], []) else s
  {
  }

  // ----- streams ------------------------------------------------------------------------------------------------

  lemma {:induction false} ReadLinesJoins(s: State, a: seq<string>, b: seq<string>)
    ensures ReadLines(s, a + b) == ReadLines(ReadLines(s, a), b)
    decreases |a|
  {
    if a == [] {
      assert a + b == b;
    } else {
      assert (a + b)[1..] == a[1..] + b;
      ReadLinesJoins(ReadLine(s, a[0]), a[1..], b);
    }
  }

  lemma ReadLineAdds(messages: seq<Message>, current: Message, line: string)
    ensures var alone := ReadLine(State([], current), line);
            ReadLine(State(messages, current), line) == State(messages + alone.messages, alone.current)
  {
    assert messages + [] == messages;
  }

  /** Messages read before leave those read after alone. */
  lemma {:induction false} ReadLinesAdds(messages: seq<Message>, current: Message, lines: seq<string>)
    ensures var alone := ReadLines(State([], current), lines);
            ReadLines(State(messages, current), lines) == State(messages + alone.messages, alone.current)
    decreases |lines|
  {
    if lines == [] {
      assert messages + [] == messages;
    } else {
      ReadLineAdds(messages, current, lines[0]);
      var next := ReadLine(State([], current), lines[0]);
      ReadLinesAdds(messages + next.messages, next.current, lines[1..]);
      ReadLinesAdds(next.messages, next.current, lines[1..]);
      Associates(messages, next.messages, ReadLines(State([], next.current), lines[1..]).messages);
    }
  }

  lemma Associates(a: seq<Message>, b: seq<Message>, c: seq<Message>)
    ensures a + b + c == a + (b + c)
  {
  }

  lemma {:induction false} LinesJoin(a: string, b: string)
    requires a != "" && a[|a| - 1] == '\n'
    ensures Lines(a + b) == Lines(a)[..|Lines(a)| - 1] + Lines(b) && Lines(a)[|Lines(a)| - 1] == "" && |Lines(a)| >= 2
  {
    assert (a + b)[1..] == a[1..] + b;
    if |a| == 1 {
      assert a[1..] == "" && a[1..] + b == b;
    } else {
      LinesJoin(a[1..], b);
      if a[0] == '\n' { BreakFirst(Lines(a[1..]), Lines(b)); } else { GrowsFirst(Lines(a[1..]), Lines(b), a[0]); }
    }
  }

  lemma BreakFirst(r: seq<string>, t: seq<string>)
    requires r != []
    ensures ([""] + r)[..|r|] + t == [""] + (r[..|r| - 1] + t)
  {
  }

  lemma GrowsFirst(r: seq<string>, t: seq<string>, c: char)
    requires |r| >= 2
    ensures ([[c] + r[0]] + r[1..])[..|r| - 1] + t == [[c] + (r[..|r| - 1] + t)[0]] + (r[..|r| - 1] + t)[1..]
  {
  }

  /** A text that ends with a blank line leaves nothing open. */
  lemma BlankLineCloses(a: string)
    requires |a| >= 2 && a[|a| - 1] == a[|a| - 2] == '\n'
    ensures ReadLines(NOTHING, Lines(a)[..|Lines(a)| - 1]).current == []
  {
    var init := a[..|a| - 1];
    LinesJoin(init, "\n");
    assert init + "\n" == a;
    OneNewline();
    var before := Lines(init)[..|Lines(init)| - 1];
    assert Lines(a)[..|Lines(a)| - 1] == before + [""];
    ReadLinesJoins(NOTHING, before, [""]);
    assert [""][1..] == [];
  }

  lemma OneNewline()
    ensures Lines("\n") == ["", ""]
  {
    assert "\n"[1..] == "";
  }

  /** No break is torn apart between the texts. */
  predicate JoinsWhole(a: string, b: string) {
    a == "" || a[|a| - 1] != '\r' || b == "" || b[0] != '\n'
  }

  /** How much of a text its first normalised character stands for. */
  function Taken(a: string): nat
    requires a != ""
  {
    if a[0] == '\r' && |a| > 1 && a[1] == '\n' then 2 else 1
  }

  function First(a: string): string
    requires a != ""
  {
    if a[0] == '\r' then "\n" else [a[0]]
  }

  lemma NormalisedFirst(a: string)
    requires a != ""
    ensures Normalised(a) == First(a) + Normalised(a[Taken(a)..])
  {
  }

  lemma FirstStays(a: string, b: string)
    requires a != "" && JoinsWhole(a, b)
    ensures First(a + b) == First(a) && Taken(a + b) == Taken(a) && (a + b)[Taken(a)..] == a[Taken(a)..] + b
    ensures JoinsWhole(a[Taken(a)..], b)
  {
    Shifts(a, b, Taken(a));
  }

  lemma {:induction false} NormalisedJoins(a: string, b: string)
    requires JoinsWhole(a, b)
    ensures Normalised(a + b) == Normalised(a) + Normalised(b)
    decreases |a|
  {
    if a == "" {
      assert a + b == b;
    } else {
      FirstStays(a, b);
      NormalisedFirst(a);
      NormalisedFirst(a + b);
      NormalisedJoins(a[Taken(a)..], b);
      Regroups(First(a), Normalised(a[Taken(a)..]), Normalised(b));
    }
  }

  lemma Regroups(a: string, b: string, c: string)
    ensures a + (b + c) == a + b + c
  {
  }

  lemma Shifts(a: string, b: string, k: nat)
    requires k <= |a|
    ensures (a + b)[k..] == a[k..] + b
  {
  }

  /** The text ends with a blank line, as the manager interface ends a message. */
  predicate EndsBlank(raw: string) {
    |raw| >= 4 && raw[|raw| - 4..] == "\r\n\r\n"
  }

  lemma EndsBlankNormalised(raw: string)
    requires EndsBlank(raw)
    ensures var n := Normalised(raw); |n| >= 2 && n[|n| - 1] == n[|n| - 2] == '\n'
  {
    var init := raw[..|raw| - 4];
    assert raw == init + "\r\n\r\n";
    NormalisedJoins(init, "\r\n\r\n");
    TwoBreaks();
  }

  lemma TwoBreaks()
    ensures Normalised("\r\n\r\n") == "\n\n"
  {
    assert "\r\n\r\n"[2..] == "\r\n" && "\r\n"[2..] == "";
  }

  /** Cutting a stream behind a blank line does not change what it parses to. */
  lemma ParseSplits(a: string, b: string)
    requires EndsBlank(a)
    ensures Parsed(a + b) == Parsed(a) + Parsed(b)
  {
    NormalisedJoins(a, b);
    EndsBlankNormalised(a);
    var na, nb := Normalised(a), Normalised(b);
    LinesJoin(na, nb);
    EndsWithEmpty(Lines(na));
    BlankLineCloses(na);
    ReadsInParts(Lines(na)[..|Lines(na)| - 1], Lines(nb));
  }

  lemma EndsWithEmpty(lines: seq<string>)
    requires lines != [] && lines[|lines| - 1] == ""
    ensures lines == lines[..|lines| - 1] + [""]
  {
  }

  /** Lines that leave nothing open, and what follows them. */
  lemma ReadsInParts(before: seq<string>, later: seq<string>)
    requires ReadLines(NOTHING, before).current == []
    ensures Finished(ReadLines(NOTHING, before + later))
              == Finished(ReadLines(NOTHING, before + [""])) + Finished(ReadLines(NOTHING, later))
  {
    var mid := ReadLines(NOTHING, before);
    ReadLinesJoins(NOTHING, before, later);
    ReadLinesJoins(NOTHING, before, [""]);
    ReadLinesAdds(mid.messages, [], later);
    BlankAlone(mid);
  }

  lemma BlankAlone(s: State)
    requires s.current == []
    ensures ReadLines(s, [""]) == s
  {
    assert [""][1..] == [];
  }

  function Concat(texts: seq<string>): string {
    if texts == [] then "" else texts[0] + Concat(texts[1..])
  }

  function ParsedEach(texts: seq<string>): seq<Message> {
    if texts == [] then [] else Parsed(texts[0]) + ParsedEach(texts[1..])
  }

  /** Parsing a whole stream is parsing its blank-line terminated pieces one by one. */
  lemma {:induction false} StreamParses(texts: seq<string>)
    requires forall t | t in texts :: EndsBlank(t)
    ensures Parsed(Concat(texts)) == ParsedEach(texts)
  {
    if texts == [] {
      assert Lines("") == [""];
      BlankAlone(NOTHING);
    } else {
      StreamParses(texts[1..]);
      ParseSplits(texts[0], Concat(texts[1..]));
    }
  }

  // ----- printing -------------------------------------------------------------------------------------------------

  /** `"\r\n".join(lines) + "\r\n\r\n"` over the lines of an action: each line and its break, then a blank line. */
  function Printed(fields: seq<(string, string)>): string {
    if fields == [] then "\r\n" else FieldLine(fields[0]) + "\r\n" + Printed(fields[1..])
  }

  function FieldLine(f: (string, string)): string { f.0 + ": " + f.1 }

  predicate Plain(s: string) { Trimmed(s) && '\r' !in s && '\n' !in s }

  /** What a line can carry: trimmed text without line breaks, and no colon in the key. */
  predicate Printable(f: (string, string)) { Plain(f.0) && Plain(f.1) && ':' !in f.0 }

  predicate AllPrintable(fields: seq<(string, string)>) { forall f | f in fields :: Printable(f) }

  lemma {:induction false} ColonAfter(key: string, rest: string)
    requires ':' !in key
    ensures ColonAt(key + [':'] + rest) == |key|
  {
    if key == "" {
      assert key + [':'] + rest == [':'] + rest;
    } else {
      assert (key + [':'] + rest)[1..] == key[1..] + [':'] + rest;
      ColonAfter(key[1..], rest);
    }
  }

  lemma StripSpaced(value: string)
    requires Trimmed(value)
    ensures Strip([' '] + value) == value
  {
    assert ([' '] + value)[1..] == value;
    SpaceIsSpace();
    LeftOf([' '] + value);
    StripOf([' '] + value);
    TrimmedStays(value);
  }

  lemma SpaceIsSpace()
    ensures IsSpace(' ')
  {
  }

  lemma LeftOf(s: string)
    requires s != "" && IsSpace(s[0])
    ensures StripLeft(s) == StripLeft(s[1..])
  {
  }

  lemma StripOf(s: string)
    ensures Strip(s) == StripRight(StripLeft(s))
  {
  }

  lemma TrimmedStays(value: string)
    requires Trimmed(value)
    ensures StripRight(StripLeft(value)) == value
  {
    assert StripLeft(value) == value;
  }

  /** A printed line parses to its field. */
  lemma LineReadsBack(f: (string, string))
    requires Printable(f)
    ensures FieldLine(f) != "" && KeyAndValue(FieldLine(f)) == Some(f)
  {
    var line := FieldLine(f);
    assert line == f.0 + [':'] + ([' '] + f.1);
    ColonAfter(f.0, [' '] + f.1);
    assert line[..|f.0|] == f.0 && line[|f.0| + 1..] == [' '] + f.1;
    StripSpaced(f.1);
    assert Strip(f.0) == f.0;
  }

  /** The fields taken in one after the other. */
  function Merged(m: Message, fields: seq<(string, string)>): Message
    decreases |fields|
  {
    if fields == [] then m else Merged(Added(m, fields[0].0, fields[0].1), fields[1..])
  }

  lemma {:induction false} PlainLine(line: string, rest: string)
    requires '\r' !in line && '\n' !in line
    ensures Normalised(line + "\r\n" + rest) == line + ['\n'] + Normalised(rest)
    ensures Lines(line + ['\n'] + rest) == [line] + Lines(rest)
  {
    if line == "" {
      assert line + "\r\n" + rest == "\r\n" + rest && ("\r\n" + rest)[2..] == rest;
      assert line + ['\n'] + Normalised(rest) == ['\n'] + Normalised(rest);
      assert line + ['\n'] + rest == ['\n'] + rest && (['\n'] + rest)[1..] == rest;
    } else {
      assert (line + "\r\n" + rest)[1..] == line[1..] + "\r\n" + rest;
      assert (line + ['\n'] + rest)[1..] == line[1..] + ['\n'] + rest;
      assert line[0] in line;
      PlainLine(line[1..], rest);
      assert [line[0]] + line[1..] == line;
    }
  }

  lemma PlainParts(f: (string, string))
    requires Printable(f)
    ensures '\r' !in FieldLine(f) && '\n' !in FieldLine(f)
  {
  }

  lemma {:induction false} PrintedLines(fields: seq<(string, string)>, s: State)
    requires AllPrintable(fields)
    ensures ReadLines(s, Lines(Normalised(Printed(fields)))) == ReadLine(s.(current := Merged(s.current, fields)), "")
    decreases |fields|
  {
    if fields == [] {
      assert "\r\n"[2..] == "";
      assert Normalised("\r\n") == ['\n'] + "" == "\n";
      OneNewline();
      assert ["", ""][1..] == [""] && [""][1..] == [];
    } else {
      var f := fields[0];
      assert f in fields;
      PlainParts(f);
      PlainLine(FieldLine(f), Printed(fields[1..]));
      PlainLine(FieldLine(f), Normalised(Printed(fields[1..])));
      LineReadsBack(f);
      var rest := Lines(Normalised(Printed(fields[1..])));
      assert ([FieldLine(f)] + rest)[1..] == rest;
      PrintedLines(fields[1..], ReadLine(s, FieldLine(f)));
    }
  }

  /** What an action writes parses to one message with its fields. */
  lemma ActionReadsBack(fields: seq<(string, string)>)
    requires AllPrintable(fields) && fields != []
    ensures Parsed(Printed(fields)) == [Merged([], fields)]
  {
    PrintedLines(fields, NOTHING);
    MergedIsNotEmpty([], fields);
  }

  lemma {:induction false} MergedIsNotEmpty(m: Message, fields: seq<(string, string)>)
    requires m != [] || fields != []
    ensures Merged(m, fields) != []
    decreases |fields|
  {
    if fields != [] { MergedIsNotEmpty(Added(m, fields[0].0, fields[0].1), fields[1..]); }
  }

  // ----- what a merged message holds ---------------------------------------------------------------------------------

  function ValuesOf(m: Message, key: string): seq<string> {
    if m == [] then [] else if m[0].key == key then m[0].values else ValuesOf(m[1..], key)
  }

  /** All values printed for a key, in order. */
  function Written(fields: seq<(string, string)>, key: string): seq<string> {
    if fields == [] then [] else (if fields[0].0 == key then [fields[0].1] else []) + Written(fields[1..], key)
  }

  predicate DistinctKeys(m: Message) {
    forall i, j | 0 <= i < j < |m| :: m[i].key != m[j].key
  }

  lemma {:induction false} AddedHolds(m: Message, key: string, value: string, other: string)
    ensures ValuesOf(Added(m, key, value), other) == ValuesOf(m, other) + (if other == key then [value] else [])
  {
    if m == [] {
      assert [Field(key, [value])][1..] == [];
    } else if m[0].key == key {
      assert Added(m, key, value)[1..] == m[1..];
    } else {
      AddedHolds(m[1..], key, value, other);
      assert Added(m, key, value)[1..] == Added(m[1..], key, value);
    }
  }

  predicate HasKey(m: Message, key: string) { exists i :: 0 <= i < |m| && m[i].key == key }

  lemma {:induction false} AddedKeys(m: Message, key: string, value: string, f: Field)
    requires f in Added(m, key, value)
    ensures f.key == key || HasKey(m, f.key)
  {
    if m != [] && m[0].key != key && f != m[0] {
      AddedKeys(m[1..], key, value, f);
      if HasKey(m[1..], f.key) { var i :| 0 <= i < |m[1..]| && m[1..][i].key == f.key; assert m[i + 1].key == f.key; }
    } else if m != [] && m[0].key == key && f in m[1..] {
      var i :| 0 <= i < |m[1..]| && m[1..][i] == f;
      assert m[i + 1].key == f.key;
    }
  }

  lemma {:induction false} AddedDistinct(m: Message, key: string, value: string)
    requires DistinctKeys(m)
    ensures DistinctKeys(Added(m, key, value))
  {
    if m != [] && m[0].key != key {
      AddedDistinct(m[1..], key, value);
      var rest := Added(m[1..], key, value);
      forall j | 0 <= j < |rest| ensures rest[j].key != m[0].key {
        AddedKeys(m[1..], key, value, rest[j]);
        if rest[j].key != key {
          var i :| 0 <= i < |m[1..]| && m[1..][i].key == rest[j].key; assert m[i + 1] == m[1..][i];
        }
      }
    }
  }

  /** Every key of a merged message holds exactly the values written for it, in order. */
  lemma {:induction false} MergedHolds(m: Message, fields: seq<(string, string)>, key: string)
    requires DistinctKeys(m)
    ensures ValuesOf(Merged(m, fields), key) == ValuesOf(m, key) + Written(fields, key)
    ensures DistinctKeys(Merged(m, fields))
    decreases |fields|
  {
    if fields != [] {
      AddedHolds(m, fields[0].0, fields[0].1, key);
      AddedDistinct(m, fields[0].0, fields[0].1);
      MergedHolds(Added(m, fields[0].0, fields[0].1), fields[1..], key);
    }
  }

  // ----- framing ---------------------------------------------------------------------------------------------------

  /** `readuntil(b"\r\n\r\n")`: how many characters it takes; None while the end has not come. */
  function Until(stream: string): Option<nat> {
    if |stream| < 4 then None
    else if stream[..4] == "\r\n\r\n" then Some(4)
    else
      var rest := Until(stream[1..]);
      if rest.None? then None else Some(rest.value + 1)
  }

  lemma {:induction false} UntilSkips(line: string, rest: string)
    requires '\r' !in line
    ensures Until(line + rest) == if Until(rest).Some? then Some(|line| + Until(rest).value) else None
  {
    if line == "" {
      assert line + rest == rest;
    } else {
      var s := line + rest;
      assert s[1..] == line[1..] + rest;
      UntilSkips(line[1..], rest);
      assert s[0] == line[0] && line[0] in line;
      if |s| < 4 {
        UntilIsLong(s[1..]);
      } else {
        assert s[..4][0] == s[0];
      }
    }
  }

  lemma {:induction false} UntilIsLong(s: string)
    ensures Until(s).Some? ==> 4 <= Until(s).value <= |s|
  {
    if |s| >= 4 && s[..4] != "\r\n\r\n" { UntilIsLong(s[1..]); }
  }

  /** A printed message is read up to its own end, however much follows. */
  lemma {:induction false} ReadsOneMessage(fields: seq<(string, string)>, rest: string)
    requires AllPrintable(fields) && fields != []
    ensures Until(Printed(fields) + rest) == Some(|Printed(fields)|)
    decreases |fields|
  {
    var f := fields[0];
    assert f in fields;
    PlainParts(f);
    var tail := Printed(fields[1..]) + rest;
    LineFirst(FieldLine(f), Printed(fields[1..]), rest);
    UntilSkips(FieldLine(f), "\r\n" + tail);
    if fields[1..] == [] {
      assert ("\r\n" + tail)[..4] == "\r\n\r\n";
    } else {
      PrintedStarts(fields[1..]);
      NotYet(tail);
      ReadsOneMessage(fields[1..], rest);
    }
  }

  lemma LineFirst(line: string, printed: string, rest: string)
    ensures (line + "\r\n" + printed) + rest == line + ("\r\n" + (printed + rest))
  {
  }

  lemma PrintedStarts(fields: seq<(string, string)>)
    requires AllPrintable(fields) && fields != []
    ensures |Printed(fields)| >= 2 && Printed(fields)[0] != '\r'
  {
    assert fields[0] in fields;
    PlainParts(fields[0]);
    assert Printed(fields)[0] == FieldLine(fields[0])[0] && FieldLine(fields[0])[0] in FieldLine(fields[0]);
  }

  lemma NotYet(tail: string)
    requires |tail| >= 2 && tail[0] != '\r'
    ensures Until("\r\n" + tail) == if Until(tail).Some? then Some(2 + Until(tail).value) else None
  {
    var s := "\r\n" + tail;
    assert s[1..][1..] == tail;
    assert s[..4][2] == tail[0];
    assert s[1] == '\n';
    if |s[1..]| >= 4 { assert s[1..][..4][0] == '\n'; } else { UntilIsLong(tail); }
  }
}
