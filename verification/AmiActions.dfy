/** Sending an action over the manager interface and collecting its answer from a stream that also carries
    events and the answers to other actions. */
module AmiActions {
  import opened Wrappers
  import opened PyStrings
  import opened AmiText

  // ----- looking up a key ---------------------------------------------------------------------------------------

  /** `_value`: the last value of the last key of this name, whatever its case; "" if there is none. */
  function Value(m: Message, name: string): string {
    if m == [] then ""
    else
      var last := m[|m| - 1];
      if Lower(last.key) == Lower(name) then (if last.values == [] then "" else last.values[|last.values| - 1])
      else Value(m[..|m| - 1], name)
  }

  // ----- writing ---------------------------------------------------------------------------------------------------

  function JoinBreaks(lines: seq<string>): string {
    if lines == [] then "" else if |lines| == 1 then lines[0] else lines[0] + "\r\n" + JoinBreaks(lines[1..])
  }

  function FieldLines(fields: seq<(string, string)>): seq<string> {
    seq(|fields|, i requires 0 <= i < |fields| => FieldLine(fields[i]))
  }

  lemma {:induction false} JoinedIsPrinted(fields: seq<(string, string)>)
    requires fields != []
    ensures JoinBreaks(FieldLines(fields)) + "\r\n\r\n" == Printed(fields)
  {
    var f := FieldLine(fields[0]);
    if |fields| == 1 {
      assert Printed(fields[1..]) == "\r\n";
      assert f + "\r\n\r\n" == f + "\r\n" + "\r\n";
    } else {
      JoinedIsPrinted(fields[1..]);
      assert FieldLines(fields)[1..] == FieldLines(fields[1..]);
      assert f + "\r\n" + JoinBreaks(FieldLines(fields[1..])) + "\r\n\r\n"
          == f + "\r\n" + (JoinBreaks(FieldLines(fields[1..])) + "\r\n\r\n");
    }
  }

  function ActionFields(action: string, id: string, parameters: seq<(string, string)>): seq<(string, string)> {
    [("Action", action), ("ActionID", id)] + parameters
  }

  /** What `action` writes. */
  method ActionText(action: string, id: string, parameters: seq<(string, string)>) returns (text: string)
    ensures text == Printed(ActionFields(action, id, parameters))
  {
    var lines := ["Action" + ": " + action, "ActionID" + ": " + id];
    ghost var fields := ActionFields(action, id, parameters);
    for k := 0 to |parameters|
      invariant lines == FieldLines(fields)[..k + 2]
    {
      lines := lines + [FieldLine(parameters[k])];
    }
    assert lines == FieldLines(fields);
    JoinedIsPrinted(fields);
    text := JoinBreaks(lines) + "\r\n\r\n";
  }

  // ----- collecting the answer -------------------------------------------------------------------------------------

  /** Its own, or without an action id: events and banners carry none. */
  predicate Mine(m: Message, id: string) {
    Value(m, "ActionID") == "" || Value(m, "ActionID") == id
  }

  predicate IsError(m: Message) { Lower(Value(m, "Response")) == "error" }

  /** The message after which nothing more is awaited. */
  predicate Completes(m: Message, complete: Option<string>) {
    match complete
    case None => Value(m, "Response") != ""
    case Some(event) => event != "" && Value(m, "Event") == event
  }

  datatype Answer =
    | Collected(messages: seq<Message>)
    | Refused(text: string)
    | Waiting            // the stream so far does not decide: the action waits, up to its timeout

  function ErrorText(m: Message, action: string): string {
    if Value(m, "Message") != "" then Value(m, "Message") else "AMI action " + action + " failed."
  }

  /** The answer as a function of the messages that are not foreign. */
  function AnswerFrom(mine: seq<Message>, k: nat, action: string, complete: Option<string>): Answer
    requires k <= |mine|
    decreases |mine| - k
  {
    if k == |mine| then Waiting
    else if IsError(mine[k]) then Refused(ErrorText(mine[k], action))
    else if Completes(mine[k], complete) then Collected(mine[..k + 1])
    else AnswerFrom(mine, k + 1, action, complete)
  }

  function Own(stream: seq<Message>, id: string): seq<Message> {
    if stream == [] then []
    else Own(stream[..|stream| - 1], id) + (if Mine(stream[|stream| - 1], id) then [stream[|stream| - 1]] else [])
  }

  /** The loop of `action`, over the messages that arrive before the timeout; it consumes no more than the
      message that decides. */
  method CollectAnswer(stream: seq<Message>, id: string, action: string, complete: Option<string>)
    returns (answer: Answer, consumed: nat)
    ensures answer == AnswerFrom(Own(stream, id), 0, action, complete)
    ensures consumed <= |stream| && (answer.Waiting? ==> consumed == |stream|)
    ensures answer == AnswerFrom(Own(stream[..consumed], id), 0, action, complete)
    ensures !answer.Waiting? ==>
              consumed > 0
              && AnswerFrom(Own(stream[..consumed - 1], id), 0, action, complete).Waiting?
  {
    var messages: seq<Message> := [];
    consumed := 0;
    while consumed < |stream|
      invariant consumed <= |stream| && messages == Own(stream[..consumed], id)
      invariant AnswerFrom(messages, 0, action, complete).Waiting?
    {
      var message := stream[consumed];
      assert stream[..consumed + 1][..consumed] == stream[..consumed];
      consumed := consumed + 1;
      if !Mine(message, id) { continue; }
      OneMore(messages, message, 0, action, complete);
      messages := messages + [message];
      DecidedStays(stream, consumed, id, action, complete);
      if IsError(message) { return Refused(ErrorText(message, action)), consumed; }
      if Completes(message, complete) { return Collected(messages), consumed; }
    }
    assert stream[..consumed] == stream;
    answer := Waiting;
  }

  lemma {:induction false} OneMore(mine: seq<Message>, m: Message, k: nat, action: string, complete: Option<string>)
    requires k <= |mine| && AnswerFrom(mine, k, action, complete).Waiting?
    ensures AnswerFrom(mine + [m], k, action, complete)
              == if IsError(m) then Refused(ErrorText(m, action))
                 else if Completes(m, complete) then Collected(mine + [m]) else Waiting
    decreases |mine| - k
  {
    if k < |mine| {
      OneMore(mine, m, k + 1, action, complete);
    } else {
      assert (mine + [m])[..k + 1] == mine + [m];
    }
  }

  lemma {:induction false} OwnJoins(a: seq<Message>, b: seq<Message>, id: string)
    ensures Own(a + b, id) == Own(a, id) + Own(b, id)
  {
    if b == [] {
      assert a + b == a;
    } else {
      assert (a + b)[..|a + b| - 1] == a + b[..|b| - 1];
      OwnJoins(a, b[..|b| - 1], id);
    }
  }

  /** An answer, once decided, does not change as more arrives. */
  lemma {:induction false} AnswerStays(a: seq<Message>, b: seq<Message>, k: nat, action: string,
                                       complete: Option<string>)
    requires k <= |a| && !AnswerFrom(a, k, action, complete).Waiting?
    ensures AnswerFrom(a + b, k, action, complete) == AnswerFrom(a, k, action, complete)
    decreases |a| - k
  {
    assert k < |a| && (a + b)[..k + 1] == a[..k + 1];
    if !IsError(a[k]) && !Completes(a[k], complete) { AnswerStays(a, b, k + 1, action, complete); }
  }

  lemma DecidedStays(stream: seq<Message>, n: nat, id: string, action: string, complete: Option<string>)
    requires n <= |stream|
    ensures !AnswerFrom(Own(stream[..n], id), 0, action, complete).Waiting? ==>
              AnswerFrom(Own(stream, id), 0, action, complete) == AnswerFrom(Own(stream[..n], id), 0, action, complete)
  {
    assert stream[..n] + stream[n..] == stream;
    OwnJoins(stream[..n], stream[n..], id);
    if !AnswerFrom(Own(stream[..n], id), 0, action, complete).Waiting? {
      AnswerStays(Own(stream[..n], id), Own(stream[n..], id), 0, action, complete);
    }
  }

  // ----- what the answer is ----------------------------------------------------------------------------------------

  predicate Undecided(m: Message, complete: Option<string>) { !IsError(m) && !Completes(m, complete) }

  /** The answer read off the stream: everything of its own up to the first that completes, unless an error
      comes first; that error's text; or no decision yet. */
  predicate Answers(mine: seq<Message>, k: nat, answer: Answer, action: string, complete: Option<string>)
    requires k <= |mine|
  {
    match answer
    case Waiting => forall i | k <= i < |mine| :: Undecided(mine[i], complete)
    case Collected(messages) =>
      k < |messages| <= |mine| && messages == mine[..|messages|]
      && Completes(mine[|messages| - 1], complete) && !IsError(mine[|messages| - 1])
      && forall i | k <= i < |messages| - 1 :: Undecided(mine[i], complete)
    case Refused(text) =>
      exists e | k <= e < |mine| :: IsError(mine[e]) && text == ErrorText(mine[e], action)
                                    && UndecidedUpTo(mine, k, e, complete)
  }

  predicate UndecidedUpTo(mine: seq<Message>, k: nat, e: nat, complete: Option<string>) {
    e <= |mine| && forall i | k <= i < e :: Undecided(mine[i], complete)
  }

  lemma {:induction false} AnswerIs(mine: seq<Message>, k: nat, action: string, complete: Option<string>)
    requires k <= |mine|
    ensures Answers(mine, k, AnswerFrom(mine, k, action, complete), action, complete)
    decreases |mine| - k
  {
    if k < |mine| {
      if Undecided(mine[k], complete) {
        AnswerIs(mine, k + 1, action, complete);
        if AnswerFrom(mine, k, action, complete).Refused? {
          var e :| k + 1 <= e < |mine| && IsError(mine[e])
              && AnswerFrom(mine, k, action, complete).text == ErrorText(mine[e], action)
                   && UndecidedUpTo(mine, k + 1, e, complete);
          assert UndecidedUpTo(mine, k, e, complete);
        }
      } else if IsError(mine[k]) {
        assert UndecidedUpTo(mine, k, k, complete);
      }
    }
  }

  /** Messages that belong to other actions, wherever they come in and however many, change nothing. */
  lemma ForeignMessagesDoNotMatter(before: seq<Message>, foreign: seq<Message>, after: seq<Message>, id: string,
                                   action: string,
                                   complete: Option<string>)
    requires forall m | m in foreign :: !Mine(m, id)
    ensures AnswerFrom(Own(before + foreign + after, id), 0, action, complete)
              == AnswerFrom(Own(before + after, id), 0, action, complete)
  {
    OwnJoins(before + foreign, after, id);
    OwnJoins(before, foreign, id);
    OwnJoins(before, after, id);
    NoneOwn(foreign, id);
    assert Own(before, id) + [] == Own(before, id);
  }

  lemma {:induction false} NoneOwn(foreign: seq<Message>, id: string)
    requires forall m | m in foreign :: !Mine(m, id)
    ensures Own(foreign, id) == []
  {
    if foreign != [] { NoneOwn(foreign[..|foreign| - 1], id); }
  }

  /** Two actions in flight with different ids never collect each other's messages. */
  lemma AnswersDoNotMix(stream: seq<Message>, id: string, other: string, action: string, complete: Option<string>,
                        m: Message)
    requires other != id && other != "" && Value(m, "ActionID") == other
    ensures var answer := AnswerFrom(Own(stream, id), 0, action, complete);
            answer.Collected? ==> m !in answer.messages
  {
    var mine := Own(stream, id);
    var answer := AnswerFrom(mine, 0, action, complete);
    AnswerIs(mine, 0, action, complete);
    OwnAreMine(stream, id);
    if answer.Collected? {
      forall x | x in answer.messages ensures Mine(x, id) { assert x in mine; }
    }
  }

  lemma {:induction false} OwnAreMine(stream: seq<Message>, id: string)
    ensures forall m | m in Own(stream, id) :: Mine(m, id) && m in stream
  {
    if stream != [] { OwnAreMine(stream[..|stream| - 1], id); }
  }
}
