/** The generated dialplan as a program: the lines of `extensions.conf`, how they group into
    extensions, and a machine that runs the applications the generator uses. */
module Dialplan {
  import opened Wrappers

  // ----- lines -----------------------------------------------------------------------------------

  /** `${NAME}`, `${CALLERID(num)}`, `${ARGn}`, literal text, and text made of such parts. */
  datatype Expr = Text(text: string) | Variable(name: string) | CallerNumber | Arg(n: nat) | Joined(parts: seq<Expr>)

  datatype App =
    | NoOp
    | Set(name: string, value: Expr)
    | SetCallerNumber(value: Expr)
    | SetCdr(value: Expr)
    | GotoIf(left: Expr, right: Expr, tag: string)
    | Goto(context: string, exten: string)
    | GotoRest(context: string, skip: nat)     // Goto(context,${EXTEN:skip},1)
    | GotoExten(exten: string)                 // Goto(exten,1): another extension of this context
    | GotoIfTime(exten: string)
    | WaitExten
    | Gosub(context: string, exten: string, args: seq<Expr>)
    | Return
    | Dial(target: string)
    | MixMonitor(file: Expr)
    | Hangup
    | Other(name: string)    // applications that neither branch nor set what the generator reads

  datatype Line =
    | Context(name: string)
    | Exten(exten: string, app: App)
    | Same(tag: Option<string>, app: App)
    | Plain(text: string)

  datatype Step = Step(tag: Option<string>, app: App)

  // ----- from lines to extensions ------------------------------------------------------------------

  datatype Cursor = Cursor(context: string, exten: string)

  const TOP := Cursor("", "")

  function Advance(at: Cursor, line: Line): Cursor {
    match line
    case Context(name) => Cursor(name, "")
    case Exten(exten, _) => at.(exten := exten)
    case Same(_, _) => at
    case Plain(_) => at
  }

  function CursorAfter(at: Cursor, lines: seq<Line>): Cursor
    decreases |lines|
  {
    if lines == [] then at else CursorAfter(Advance(at, lines[0]), lines[1..])
  }

  /** What one line adds to the extension `to`: `same` continues the extension it stands under. */
  function Adds(at: Cursor, line: Line, to: Cursor): seq<Step> {
    if Advance(at, line) != to then []
    else match line
      case Exten(_, app) => [Step(None, app)]
      case Same(tag, app) => [Step(tag, app)]
      case Context(_) => []
      case Plain(_) => []
  }

  function Collect(at: Cursor, lines: seq<Line>, to: Cursor): seq<Step>
    decreases |lines|
  {
    if lines == [] then [] else Adds(at, lines[0], to) + Collect(Advance(at, lines[0]), lines[1..], to)
  }

  /** The priorities of an extension, in order. */
  function Steps(lines: seq<Line>, context: string, exten: string): seq<Step> {
    Collect(TOP, lines, Cursor(context, exten))
  }

  lemma {:induction false} CollectSplits(at: Cursor, a: seq<Line>, b: seq<Line>, to: Cursor)
    ensures Collect(at, a + b, to) == Collect(at, a, to) + Collect(CursorAfter(at, a), b, to)
    ensures CursorAfter(at, a + b) == CursorAfter(CursorAfter(at, a), b)
    decreases |a|
  {
    if a == [] {
      assert a + b == b;
    } else {
      assert (a + b)[1..] == a[1..] + b;
      CollectSplits(Advance(at, a[0]), a[1..], b, to);
    }
  }

  /** Lines that never open a context say nothing about its extensions. */
  lemma {:induction false} ElsewhereAddsNothing(at: Cursor, lines: seq<Line>, to: Cursor)
    requires at.context != to.context && Context(to.context) !in lines
    ensures Collect(at, lines, to) == [] && CursorAfter(at, lines).context != to.context
    decreases |lines|
  {
    if lines != [] {
      ElsewhereAddsNothing(Advance(at, lines[0]), lines[1..], to);
    }
  }

  /** Every priority of every extension stands on a line. */
  lemma {:induction false} StepsStandOnLines(at: Cursor, lines: seq<Line>, to: Cursor, i: nat)
    requires i < |Collect(at, lines, to)|
    ensures exists l :: l in lines && (l.Exten? || l.Same?) && l.app == Collect(at, lines, to)[i].app
    decreases |lines|
  {
    var first := Adds(at, lines[0], to);
    if i < |first| {
      assert lines[0] in lines && lines[0].app == first[i].app;
    } else {
      StepsStandOnLines(Advance(at, lines[0]), lines[1..], to, i - |first|);
    }
  }

  predicate AllSame(lines: seq<Line>) {
    forall l | l in lines :: l.Same?
  }

  /** The priorities that `same` lines are. */
  function AsSteps(lines: seq<Line>): seq<Step>
    requires AllSame(lines)
  {
    seq(|lines|, i requires 0 <= i < |lines| => Step(lines[i].tag, lines[i].app))
  }

  /** Lines that all continue the extension they stand under are its next priorities, and nobody else's. */
  lemma {:induction false} SameLinesCollect(at: Cursor, lines: seq<Line>, to: Cursor)
    requires AllSame(lines)
    ensures Collect(at, lines, to) == (if to == at then AsSteps(lines) else []) && CursorAfter(at, lines) == at
    decreases |lines|
  {
    if lines != [] {
      assert lines[0] in lines;
      assert AllSame(lines[1..]);
      SameLinesCollect(at, lines[1..], to);
    }
  }

  /** An extension as the generator writes it: its first priority, its `same` lines, a blank line. */
  function Block(exten: string, app: App, tail: seq<Line>): seq<Line> {
    [Exten(exten, app)] + tail + [Plain("")]
  }

  function BlockSteps(app: App, tail: seq<Line>): seq<Step>
    requires AllSame(tail)
  {
    [Step(None, app)] + AsSteps(tail)
  }

  lemma BlockCollects(at: Cursor, exten: string, app: App, tail: seq<Line>, to: Cursor)
    requires AllSame(tail)
    ensures Collect(at, Block(exten, app, tail), to)
              == if to == Cursor(at.context, exten) then BlockSteps(app, tail) else []
    ensures CursorAfter(at, Block(exten, app, tail)) == Cursor(at.context, exten)
  {
    var under := Cursor(at.context, exten);
    SameLinesCollect(under, tail, to);
    CollectSplits(under, tail, [Plain("")], to);
    assert Block(exten, app, tail)[1..] == tail + [Plain("")];
    BlankCollects(under, to);
  }

  lemma BlankCollects(at: Cursor, to: Cursor)
    ensures Collect(at, [Plain("")], to) == [] && CursorAfter(at, [Plain("")]) == at
  {
    assert [Plain("")][1..] == [];
    assert CursorAfter(at, []) == at && Collect(at, [], to) == [];
  }

  // ----- the machine -------------------------------------------------------------------------------

  datatype Pc = Pc(context: string, exten: string, priority: nat)

  /** A Gosub frame: where to return, and the values of `${ARG1}`, `${ARG2}`, ... inside. */
  datatype Frame = Frame(back: Pc, args: seq<string>)

  /** What a dial attempt does: nobody answers, or somebody does, and then the call may or may not
      come back to the dialplan. */
  datatype DialResult = Unanswered(status: DialStatus) | Answered(resumes: bool)

  datatype DialStatus = Busy | NoAnswer | Congestion | Unavailable

  /** What `${DIALSTATUS}` then holds. */
  function StatusText(result: DialResult): string {
    match result
    case Answered(_) => "ANSWER"
    case Unanswered(Busy) => "BUSY"
    case Unanswered(NoAnswer) => "NOANSWER"
    case Unanswered(Congestion) => "CONGESTION"
    case Unanswered(Unavailable) => "CHANUNAVAIL"
  }

  /** What the outside world answers: to each dial, to each look at the clock, to each menu. */
  datatype Oracle = Oracle(dial: nat -> DialResult, open: nat -> bool, key: nat -> string)

  datatype Call = Call(
    pc: Pc, live: bool, stack: seq<Frame>, vars: map<string, string>, caller: string,
    asked: nat,                          // history: how often the clock or a menu was asked
    dialed: seq<string>,                 // history: Dial targets, in order
    monitored: seq<string>,              // history: files MixMonitor was started on
    hooked: seq<seq<string>>)            // history: arguments of each Gosub to the recording hooks

  function Next(pc: Pc): Pc {
    pc.(priority := pc.priority + 1)
  }

  function Lookup(vars: map<string, string>, name: string): string {
    if name in vars then vars[name] else ""
  }

  function Args(call: Call): seq<string> {
    if call.stack == [] then [] else call.stack[0].args
  }

  function Eval(call: Call, e: Expr): string {
    match e
    case Text(text) => text
    case Variable(name) => Lookup(call.vars, name)
    case CallerNumber => call.caller
    case Arg(n) => if 1 <= n <= |Args(call)| then Args(call)[n - 1] else ""
    case Joined(parts) => EvalAll(call, parts)
  }

  function EvalAll(call: Call, parts: seq<Expr>): string {
    if parts == [] then "" else Eval(call, parts[0]) + EvalAll(call, parts[1..])
  }

  function EvalArgs(call: Call, args: seq<Expr>): seq<string> {
    seq(|args|, i requires 0 <= i < |args| => Eval(call, args[i]))
  }

  /** The first priority with this label. */
  function FindLabel(steps: seq<Step>, tag: string): Option<nat> {
    if steps == [] then None
    else if steps[0].tag == Some(tag) then Some(0)
    else match FindLabel(steps[1..], tag)
      case None => None
      case Some(i) => Some(i + 1)
  }

  lemma {:induction false} FirstTag(steps: seq<Step>, tag: string, i: nat)
    requires i < |steps| && steps[i].tag == Some(tag)
    requires forall j | 0 <= j < i :: steps[j].tag != Some(tag)
    ensures FindLabel(steps, tag) == Some(i)
  {
    if i > 0 { FirstTag(steps[1..], tag, i - 1); }
  }

  const RECORDING_HOOKS := "recording-hooks"

  function Execute(lines: seq<Line>, oracle: Oracle, call: Call, app: App): Call {
    var next := call.(pc := Next(call.pc));
    match app
    case NoOp => next
    case Other(_) => next
    case Set(name, value) => next.(vars := call.vars[name := Eval(call, value)])
    case SetCallerNumber(value) => next.(caller := Eval(call, value))
    case SetCdr(_) => next
    case GotoIf(left, right, tag) =>
      if Eval(call, left) != Eval(call, right) then next
      else (match FindLabel(Steps(lines, call.pc.context, call.pc.exten), tag)
            case None => call.(live := false)
            case Some(i) => call.(pc := call.pc.(priority := i)))
    case Goto(context, exten) => call.(pc := Pc(context, exten, 0))
    case GotoRest(context, skip) =>
      call.(pc := Pc(context, if skip <= |call.pc.exten| then call.pc.exten[skip..] else "", 0))
    case GotoExten(exten) => call.(pc := Pc(call.pc.context, exten, 0))
    case GotoIfTime(exten) =>
      var looked := next.(asked := call.asked + 1);
      if oracle.open(call.asked) then looked.(pc := Pc(call.pc.context, exten, 0)) else looked
    case WaitExten =>
      var heard := next.(asked := call.asked + 1);
      var key := oracle.key(call.asked);
      if key == "" then heard
      else if Steps(lines, call.pc.context, key) != [] then heard.(pc := Pc(call.pc.context, key, 0))
      else heard.(pc := Pc(call.pc.context, "i", 0))
    case Gosub(context, exten, args) =>
      if Steps(lines, context, exten) == [] then call.(live := false)
      else call.(pc := Pc(context, exten, 0),
                 stack := [Frame(Next(call.pc), EvalArgs(call, args))] + call.stack,
                 hooked := if context == RECORDING_HOOKS then call.hooked + [EvalArgs(call, args)] else call.hooked)
    case Return =>
      if call.stack == [] then call.(live := false)
      else call.(pc := call.stack[0].back, stack := call.stack[1..])
    case Dial(target) =>
      var result := oracle.dial(|call.dialed|);
      next.(dialed := call.dialed + [target], vars := call.vars["DIALSTATUS" := StatusText(result)],
            live := result.Answered? ==> result.resumes)
    case MixMonitor(file) => next.(monitored := call.monitored + [Eval(call, file)])
    case Hangup => call.(live := false)
  }

  /** One priority; a call that runs past the end of its extension is hung up. */
  function Tick(lines: seq<Line>, oracle: Oracle, call: Call): Call {
    if !call.live then call
    else
      var steps := Steps(lines, call.pc.context, call.pc.exten);
      if call.pc.priority >= |steps| then call.(live := false)
      else Execute(lines, oracle, call, steps[call.pc.priority].app)
  }

  function Run(lines: seq<Line>, oracle: Oracle, call: Call, n: nat): Call
    decreases n
  {
    if n == 0 then call else Run(lines, oracle, Tick(lines, oracle, call), n - 1)
  }

  ghost predicate Reaches(lines: seq<Line>, oracle: Oracle, a: Call, b: Call) {
    exists n: nat :: Run(lines, oracle, a, n) == b
  }

  lemma {:induction false} RunAdds(lines: seq<Line>, oracle: Oracle, call: Call, m: nat, n: nat)
    ensures Run(lines, oracle, call, m + n) == Run(lines, oracle, Run(lines, oracle, call, m), n)
    decreases m
  {
    if m > 0 { RunAdds(lines, oracle, Tick(lines, oracle, call), m - 1, n); }
  }

  lemma Joins(lines: seq<Line>, oracle: Oracle, a: Call, b: Call, c: Call)
    requires Reaches(lines, oracle, a, b) && Reaches(lines, oracle, b, c)
    ensures Reaches(lines, oracle, a, c)
  {
    var m: nat :| Run(lines, oracle, a, m) == b;
    var n: nat :| Run(lines, oracle, b, n) == c;
    RunAdds(lines, oracle, a, m, n);
  }

  /** One tick, and the run goes on from there. */
  lemma Ticks(lines: seq<Line>, oracle: Oracle, a: Call, b: Call)
    requires a == b || Reaches(lines, oracle, Tick(lines, oracle, a), b)
    ensures Reaches(lines, oracle, a, b)
  {
    if a == b {
      assert Run(lines, oracle, a, 0) == b;
    } else {
      var n: nat :| Run(lines, oracle, Tick(lines, oracle, a), n) == b;
      assert Run(lines, oracle, a, n + 1) == b;
    }
  }
}
