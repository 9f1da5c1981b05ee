/** What an action of the manager interface comes to, in terms of the texts that arrive: which messages count,
    which raises, which completes, told from the printed fields alone. */
module AmiAnswers {
  import opened Wrappers
  import opened PyStrings
  import opened AmiText
  import opened AmiActions

  type Fields = seq<(string, string)>

  // ----- fields by name -------------------------------------------------------------------------------

  /** The value of the field of this name, in any case; "" if there is none. */
  function Said(fields: Fields, name: string): string {
    if fields == [] then ""
    else if SameButCase(fields[0].0, name) then fields[0].1
    else Said(fields[1..], name)
  }

  predicate AtMostOne(fields: Fields, name: string) {
    forall i, j | 0 <= i < j < |fields| :: !(SameButCase(fields[i].0, name) && SameButCase(fields[j].0, name))
  }

  predicate Silent(fields: Fields, name: string) {
    forall i | 0 <= i < |fields| :: !SameButCase(fields[i].0, name)
  }

  // ----- what a parsed message answers for a name --------------------------------------------------------

  predicate NoLike(m: Message, name: string) {
    forall f | f in m :: Lower(f.key) != Lower(name)
  }

  lemma {:induction false} ValueOfNone(m: Message, name: string)
    requires NoLike(m, name)
    ensures Value(m, name) == ""
  {
    if m != [] { ValueOfNone(m[..|m| - 1], name); }
  }

  /** A message looked up from its front: a later key of the name comes before the first. */
  lemma {:induction false} ValueFromFront(f: Field, rest: Message, name: string)
    ensures Value([f] + rest, name)
              == if !NoLike(rest, name) then Value(rest, name)
                 else if Lower(f.key) == Lower(name) && f.values != [] then f.values[|f.values| - 1] else ""
  {
    if rest == [] {
      assert [f] + rest == [f] && [f][..0] == [];
      assert Value([], name) == "";
    } else {
      var init := rest[..|rest| - 1];
      assert ([f] + rest)[..|[f] + rest| - 1] == [f] + init;
      ValueFromFront(f, init, name);
      LastLike(rest, name);
    }
  }

  lemma LastLike(m: Message, name: string)
    requires m != []
    ensures NoLike(m, name) <==> NoLike(m[..|m| - 1], name) && Lower(m[|m| - 1].key) != Lower(name)
  {
    assert m == m[..|m| - 1] + [m[|m| - 1]];
    assert m[|m| - 1] in m;
  }

  lemma FrontLike(m: Message, name: string)
    requires m != []
    ensures NoLike(m, name) <==> NoLike(m[1..], name) && Lower(m[0].key) != Lower(name)
  {
    assert m == [m[0]] + m[1..];
    assert m[0] in m;
  }

  lemma {:induction false} AddedLike(m: Message, key: string, value: string, name: string)
    ensures NoLike(Added(m, key, value), name) <==> NoLike(m, name) && Lower(key) != Lower(name)
  {
    var more := Added(m, key, value);
    if m == [] {
      assert more == [Field(key, [value])];
      assert Field(key, [value]) in more;
    } else {
      FrontLike(m, name);
      FrontLike(more, name);
      if m[0].key == key {
        assert more[1..] == m[1..];
      } else {
        AddedLike(m[1..], key, value, name);
        assert more[1..] == Added(m[1..], key, value);
      }
    }
  }

  /** Another name's field changes nothing. */
  lemma {:induction false} AddedOther(m: Message, key: string, value: string, name: string)
    requires Lower(key) != Lower(name)
    ensures Value(Added(m, key, value), name) == Value(m, name)
  {
    if m == [] {
      ValueOfNone(Added(m, key, value), name);
    } else {
      var rest := m[1..];
      assert m == [m[0]] + rest;
      ValueFromFront(m[0], rest, name);
      if m[0].key == key {
        ValueFromFront(Field(key, m[0].values + [value]), rest, name);
      } else {
        AddedOther(rest, key, value, name);
        AddedLike(rest, key, value, name);
        ValueFromFront(m[0], Added(rest, key, value), name);
      }
    }
  }

  /** The first field of a name is its value. */
  lemma {:induction false} AddedFirst(m: Message, key: string, value: string, name: string)
    requires NoLike(m, name) && Lower(key) == Lower(name)
    ensures Value(Added(m, key, value), name) == value
  {
    if m == [] {
      assert Added(m, key, value) == [Field(key, [value])] + [];
      ValueFromFront(Field(key, [value]), [], name);
    } else {
      FrontLike(m, name);
      assert m[0].key != key;
      AddedFirst(m[1..], key, value, name);
      AddedLike(m[1..], key, value, name);
      ValueFromFront(m[0], Added(m[1..], key, value), name);
    }
  }

  lemma {:induction false} MergedSays(m: Message, fields: Fields, name: string)
    requires AtMostOne(fields, name) && (NoLike(m, name) || Silent(fields, name))
    ensures Value(Merged(m, fields), name) == if Silent(fields, name) then Value(m, name) else Said(fields, name)
    decreases |fields|
  {
    if fields != [] {
      var f := fields[0];
      var next := Added(m, f.0, f.1);
      LowerForgetsCase(f.0, name);
      AddedLike(m, f.0, f.1, name);
      RestOfFields(fields, name);
      if SameButCase(f.0, name) {
        AddedFirst(m, f.0, f.1, name);
      } else {
        AddedOther(m, f.0, f.1, name);
      }
      MergedSays(next, fields[1..], name);
    }
  }

  lemma RestOfFields(fields: Fields, name: string)
    requires fields != [] && AtMostOne(fields, name)
    ensures AtMostOne(fields[1..], name)
    ensures Silent(fields, name) <==> !SameButCase(fields[0].0, name) && Silent(fields[1..], name)
    ensures SameButCase(fields[0].0, name) ==> Silent(fields[1..], name)
  {
    forall i | 0 <= i < |fields[1..]| ensures fields[1..][i] == fields[i + 1] { }
    if !SameButCase(fields[0].0, name) && Silent(fields[1..], name) {
      forall i | 0 <= i < |fields| ensures !SameButCase(fields[i].0, name) {
        if i > 0 { assert fields[1..][i - 1] == fields[i]; }
      }
    }
  }

  /** The value that a printed message is found to have, by a name of which it has one field at most. */
  lemma {:induction false} ValueIsSaid(fields: Fields, name: string)
    requires AtMostOne(fields, name)
    ensures Value(Merged([], fields), name) == Said(fields, name)
  {
    MergedSays([], fields, name);
    if Silent(fields, name) { SilentSaysNothing(fields, name); }
  }

  lemma {:induction false} SilentSaysNothing(fields: Fields, name: string)
    requires Silent(fields, name)
    ensures Said(fields, name) == ""
  {
    if fields != [] { SilentSaysNothing(fields[1..], name); }
  }

  // ----- the four names that matter, told from the fields -------------------------------------------------

  /** A message as printed: what lines can carry, and each of the names once at most. */
  predicate Readable(fields: Fields) {
    && fields != [] && AllPrintable(fields)
    && AtMostOne(fields, "ActionID") && AtMostOne(fields, "Response")
    && AtMostOne(fields, "Message") && AtMostOne(fields, "Event")
  }

  /** It carries the action's id, or none. */
  predicate Counts(fields: Fields, id: string) { Said(fields, "ActionID") == "" || Said(fields, "ActionID") == id }

  predicate Raises(fields: Fields) { SameButCase(Said(fields, "Response"), "error") }

  /** It is the awaited event; or, when no event is awaited, any response. */
  predicate Ends(fields: Fields, complete: Option<string>) {
    match complete
    case None => Said(fields, "Response") != ""
    case Some(event) => event != "" && Said(fields, "Event") == event
  }

  predicate Decides(fields: Fields, id: string, complete: Option<string>) {
    Counts(fields, id) && (Raises(fields) || Ends(fields, complete))
  }

  lemma FieldsTell(fields: Fields, id: string, action: string, complete: Option<string>)
    requires Readable(fields)
    ensures var m := Merged([], fields);
            && (Mine(m, id) <==> Counts(fields, id)) && (IsError(m) <==> Raises(fields))
            && (Completes(m, complete) <==> Ends(fields, complete))
            && ErrorText(m, action) == (if Said(fields, "Message") != "" then Said(fields, "Message")
                                        else "AMI action " + action + " failed.")
  {
    ValueIsSaid(fields, "ActionID");
    ValueIsSaid(fields, "Response");
    ValueIsSaid(fields, "Message");
    ValueIsSaid(fields, "Event");
    LowerForgetsCase(Said(fields, "Response"), "error");
    assert Lower("error") == "error";
  }

  // ----- a stream of printed messages -----------------------------------------------------------------------

  function StreamOf(texts: seq<Fields>): string {
    if texts == [] then "" else StreamOf(texts[..|texts| - 1]) + Printed(texts[|texts| - 1])
  }

  /** Those that count, in order. */
  function Counting(texts: seq<Fields>, id: string): seq<Fields> {
    if texts == [] then []
    else Counting(texts[..|texts| - 1], id)
         + (if Counts(texts[|texts| - 1], id) then [texts[|texts| - 1]] else [])
  }

  predicate AllReadable(texts: seq<Fields>) { forall t | t in texts :: Readable(t) }

  lemma {:induction false} PrintedEndsBlank(fields: Fields)
    requires fields != [] && AllPrintable(fields)
    ensures EndsBlank(Printed(fields))
  {
    if |fields| == 1 {
      assert Printed(fields[1..]) == "\r\n";
      assert FieldLine(fields[0]) + "\r\n" + "\r\n" == FieldLine(fields[0]) + "\r\n\r\n";
      EndsWith(FieldLine(fields[0]), "\r\n\r\n");
    } else {
      PrintedEndsBlank(fields[1..]);
      var rest := Printed(fields[1..]);
      EndsWith(FieldLine(fields[0]) + "\r\n", rest);
    }
  }

  lemma EndsWith(a: string, b: string)
    requires |b| >= 4
    ensures (a + b)[|a + b| - 4..] == b[|b| - 4..]
  {
  }

  lemma {:induction false} StreamEndsBlank(texts: seq<Fields>)
    requires texts != [] && AllReadable(texts)
    ensures EndsBlank(StreamOf(texts))
  {
    var last := texts[|texts| - 1];
    assert last in texts;
    PrintedEndsBlank(last);
    EndsWith(StreamOf(texts[..|texts| - 1]), Printed(last));
  }

  lemma {:induction false} OneMoreParses(texts: seq<Fields>)
    requires texts != [] && AllReadable(texts)
    ensures Parsed(StreamOf(texts))
              == Parsed(StreamOf(texts[..|texts| - 1])) + [Merged([], texts[|texts| - 1])]
  {
    var init, last := texts[..|texts| - 1], texts[|texts| - 1];
    assert last in texts;
    ActionReadsBack(last);
    if init == [] {
      assert StreamOf(texts) == "" + Printed(last) == Printed(last);
      StreamParses([]);
    } else {
      StreamEndsBlank(init);
      ParseSplits(StreamOf(init), Printed(last));
    }
  }

  /** Of a stream of printed messages exactly those that count are its action's own. */
  lemma {:induction false} OwnAreCounting(texts: seq<Fields>, id: string)
    requires AllReadable(texts)
    ensures Own(Parsed(StreamOf(texts)), id) == Parsed(StreamOf(Counting(texts, id)))
    ensures AllReadable(Counting(texts, id))
  {
    if texts == [] {
      StreamParses([]);
    } else {
      var init, last := texts[..|texts| - 1], texts[|texts| - 1];
      assert last in texts;
      OwnAreCounting(init, id);
      OneMoreParses(texts);
      FieldsTell(last, id, "", None);
      OwnJoins(Parsed(StreamOf(init)), [Merged([], last)], id);
      OwnOne(Merged([], last), id);
      if Counts(last, id) {
        var more := Counting(init, id) + [last];
        assert more[..|more| - 1] == Counting(init, id);
        OneMoreParses(more);
      } else {
        assert Counting(init, id) + [] == Counting(init, id);
      }
    }
  }

  lemma OwnOne(m: Message, id: string)
    ensures Own([m], id) == if Mine(m, id) then [m] else []
  {
    assert [m][..0] == [];
  }

  // ----- the answer to a stream -------------------------------------------------------------------------------

  predicate NoneDecides(texts: seq<Fields>, id: string, complete: Option<string>) {
    forall t | t in texts :: !Decides(t, id, complete)
  }

  /** While no message that counts raises or ends it, the action waits. */
  lemma {:induction false} WaitsUntilDecided(texts: seq<Fields>, id: string, action: string, complete: Option<string>)
    requires AllReadable(texts) && NoneDecides(texts, id, complete)
    ensures AnswerFrom(Own(Parsed(StreamOf(texts)), id), 0, action, complete) == Waiting
  {
    if texts == [] {
      StreamParses([]);
    } else {
      var init, last := texts[..|texts| - 1], texts[|texts| - 1];
      assert last in texts;
      WaitsUntilDecided(init, id, action, complete);
      OneMoreParses(texts);
      FieldsTell(last, id, action, complete);
      OwnJoins(Parsed(StreamOf(init)), [Merged([], last)], id);
      OwnOne(Merged([], last), id);
      var mine := Own(Parsed(StreamOf(init)), id);
      if Counts(last, id) { OneMore(mine, Merged([], last), 0, action, complete); }
      else { assert mine + [] == mine; }
    }
  }

  /** The first message that counts and raises or ends the action decides it, whatever comes behind: if its
      Response is "error" in any case the action raises with its Message, or with a text of its own if that is
      empty; else it answers all the messages that count up to this one, and no others. */
  lemma FirstDecides(before: seq<Fields>, fields: Fields, after: seq<Fields>, id: string, action: string,
                     complete: Option<string>)
    requires AllReadable(before) && Readable(fields) && AllReadable(after)
    requires NoneDecides(before, id, complete) && Decides(fields, id, complete)
    ensures var stream := Parsed(StreamOf(before + [fields]) + StreamOf(after));
            AnswerFrom(Own(stream, id), 0, action, complete)
              == if Raises(fields) then
                   Refused(if Said(fields, "Message") != "" then Said(fields, "Message")
                           else "AMI action " + action + " failed.")
                 else Collected(Parsed(StreamOf(Counting(before, id) + [fields])))
  {
    var m, mine := Merged([], fields), Own(Parsed(StreamOf(before)), id);
    FieldsTell(fields, id, action, complete);
    OwnUpTo(before, fields, after, id);
    WaitsUntilDecided(before, id, action, complete);
    OneMore(mine, m, 0, action, complete);
    AnswerStays(mine + [m], Own(Parsed(StreamOf(after)), id), 0, action, complete);
    OwnAreCounting(before, id);
    var own := Counting(before, id) + [fields];
    assert own[..|own| - 1] == Counting(before, id);
    OneMoreParses(own);
  }

  lemma OwnUpTo(before: seq<Fields>, fields: Fields, after: seq<Fields>, id: string)
    requires AllReadable(before) && Readable(fields) && AllReadable(after) && Mine(Merged([], fields), id)
    ensures Own(Parsed(StreamOf(before + [fields]) + StreamOf(after)), id)
              == Own(Parsed(StreamOf(before)), id) + [Merged([], fields)] + Own(Parsed(StreamOf(after)), id)
  {
    var texts := before + [fields];
    assert texts[..|texts| - 1] == before;
    forall t | t in texts ensures Readable(t) { }
    StreamEndsBlank(texts);
    ParseSplits(StreamOf(texts), StreamOf(after));
    OneMoreParses(texts);
    OwnJoins(Parsed(StreamOf(before)), [Merged([], fields)], id);
    OwnOne(Merged([], fields), id);
    OwnJoins(Parsed(StreamOf(texts)), Parsed(StreamOf(after)), id);
  }

  /** An error response raises with the text it carries, under any spelling of the word. */
  lemma ErrorRaises(id: string, response: string, text: string, action: string, complete: Option<string>)
    requires SameButCase(response, "Error") && text != ""
    requires Readable([("Response", response), ("ActionID", id), ("Message", text)])
    ensures var fields := [("Response", response), ("ActionID", id), ("Message", text)];
            AnswerFrom(Own(Parsed(Printed(fields)), id), 0, action, complete) == Refused(text)
  {
    var fields := [("Response", response), ("ActionID", id), ("Message", text)];
    ThreeSay("Response", response, "ActionID", id, "Message", text);
    AnyCaseOfError(response);
    FirstDecides([], fields, [], id, action, complete);
    assert [] + [fields] == [fields] && [fields][..0] == [];
    assert StreamOf([fields]) + StreamOf([]) == Printed(fields);
  }

  lemma AnyCaseOfError(response: string)
    requires SameButCase(response, "Error")
    ensures SameButCase(response, "error")
  {
    LowerForgetsCase(response, "Error");
    LowerForgetsCase(response, "error");
    assert Lower("Error") == "error" == Lower("error");
  }

  lemma ThreeSay(a: string, x: string, b: string, y: string, c: string, z: string)
    requires !SameButCase(a, b) && !SameButCase(a, c) && !SameButCase(b, c)
    ensures Said([(a, x), (b, y), (c, z)], a) == x
    ensures Said([(a, x), (b, y), (c, z)], b) == y
    ensures Said([(a, x), (b, y), (c, z)], c) == z
  {
    assert [(a, x), (b, y), (c, z)][1..] == [(b, y), (c, z)] && [(b, y), (c, z)][1..] == [(c, z)];
    assert SameButCase(c, c) && Said([(c, z)], c) == z;
    assert Said([(b, y), (c, z)], c) == z;
  }
}
