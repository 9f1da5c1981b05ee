/** The recording hooks of the generated file: they are in it exactly when they are called, every
    subroutine call finds its subroutine, and whatever a call does, it is recorded at most once. */
module Recording {
  import opened Wrappers
  import opened Dialplan
  import opened CallerId
  import opened ExtensionsConf
  import opened ConfFacts

  // ----- emission ------------------------------------------------------------------------------------------

  function Count(lines: seq<Line>, line: Line): nat {
    if lines == [] then 0 else (if lines[0] == line then 1 else 0) + Count(lines[1..], line)
  }

  lemma {:induction false} CountSplits(a: seq<Line>, b: seq<Line>, line: Line)
    ensures Count(a + b, line) == Count(a, line) + Count(b, line)
  {
    if a == [] {
      assert a + b == b;
    } else {
      assert (a + b)[1..] == a[1..] + b;
      CountSplits(a[1..], b, line);
    }
  }

  lemma {:induction false} CountAbsent(lines: seq<Line>, line: Line)
    requires line !in lines
    ensures Count(lines, line) == 0
  {
    if lines != [] { CountAbsent(lines[1..], line); }
  }

  /** The hooks' context is opened once if some line of the file calls it, and never otherwise. */
  lemma HooksEmittedIffCalled(plan: Plan)
    ensures Count(Conf(plan), Context(RECORDING_HOOKS)) == if CallsHooks(Conf(plan)) then 1 else 0
  {
    var before := BeforeHooks(plan);
    var mark := Context(RECORDING_HOOKS);
    BeforeHooksLack(plan);
    HookSectionHasNoCall(plan);
    CountSplits(before, HookSection(plan), mark);
    CountAbsent(before, mark);
    if CallsHooks(before) {
      var l :| l in before && IsHookCall(l);
      assert l in Conf(plan);
      HookTailIsSame();
      BlockHasNoContext("s", NoOp, HOOK_TAIL);
      CountAbsent(HookContextLines()[1..], mark);
    }
  }

  lemma HookSectionHasNoCall(plan: Plan)
    ensures !CallsHooks(HookSection(plan))
    ensures CallsHooks(Conf(plan)) ==> CallsHooks(BeforeHooks(plan))
  {
    HookContextHasNoCall();
    CallsEither(BeforeHooks(plan), HookSection(plan));
  }

  lemma HookContextHasNoCall()
    ensures !CallsHooks(HookContextLines())
  {
    forall l | l in HookContextLines() ensures !IsHookCall(l) {
      assert l in HOOK_TAIL || !l.Same?;
    }
  }

  lemma CallsEither(a: seq<Line>, b: seq<Line>)
    ensures CallsHooks(a + b) <==> CallsHooks(a) || CallsHooks(b)
  {
    forall l ensures l in a + b <==> l in a || l in b { }
  }

  /** Every `Gosub` of the file finds the extension it names. */
  lemma EveryGosubResolves(plan: Plan, l: Line)
    requires l in BeforeHooks(plan) && (l.Same? || l.Exten?) && l.app.Gosub?
    ensures Steps(Conf(plan), l.app.context, l.app.exten) != []
  {
    GosubNames(plan, l);
    if l.app.context == RECORDING_HOOKS { HooksAreFound(plan, l); } else { SubroutineIsFound(plan); }
  }

  lemma GosubNames(plan: Plan, l: Line)
    requires l in BeforeHooks(plan) && (l.Same? || l.Exten?) && l.app.Gosub?
    ensures l.app.exten == "s"
    ensures l.app.context == RECORDING_HOOKS
            || (l.app.context == SUBROUTINE && UsesExtensionDid(plan.routes + plan.emergencyRoutes))
  {
    BeforeHooksBenign(plan);
    BenignGosub(UsesExtensionDid(plan.routes + plan.emergencyRoutes), BeforeHooks(plan), l);
  }

  lemma BenignGosub(did: bool, lines: seq<Line>, l: Line)
    requires AllBenign(did, lines) && l in lines && (l.Same? || l.Exten?) && l.app.Gosub?
    ensures l.app.exten == "s" && (l.app.context == RECORDING_HOOKS || (l.app.context == SUBROUTINE && did))
  {
    assert Benign(did, l);
  }

  lemma HooksAreFound(plan: Plan, l: Line)
    requires l in BeforeHooks(plan) && IsHookCall(l)
    ensures Steps(Conf(plan), RECORDING_HOOKS, "s") != []
  {
    HooksLoad(plan, "s");
  }

  lemma SubroutineIsFound(plan: Plan)
    requires UsesExtensionDid(plan.routes + plan.emergencyRoutes)
    ensures Steps(Conf(plan), SUBROUTINE, "s") != []
  {
    SubroutineInFile(plan);
  }

  // ----- one recording a call ----------------------------------------------------------------------------------

  function HookSteps(): seq<Step> {
    HookTailIsSame();
    BlockSteps(NoOp, HOOK_TAIL)
  }

  /** The file MixMonitor is started on for a source, on a channel with this unique id. */
  function FileFor(uid: string, pbx: string, args: seq<string>): string
    requires |args| == 3
  {
    RECORDING_ROOT + "/" + RecordingName(uid, pbx, args)
  }

  function RecordingName(uid: string, pbx: string, args: seq<string>): string
    requires |args| == 3
  {
    uid + "-" + pbx + "-" + args[0] + "-" + args[1] + "-" + args[2] + ".wav"
  }

  predicate Active(call: Call) { Lookup(call.vars, "RECORDING_ACTIVE") == "1" }

  /** Recorded once, for the first source; or not at all, when no source asked. */
  predicate Settled(call: Call, uid: string, pbx: string) {
    && (Active(call) <==> call.hooked != [])
    && (forall i | 0 <= i < |call.hooked| :: IsRequest(call.hooked[i]))
    && call.monitored == if call.hooked == [] then [] else [FileFor(uid, pbx, call.hooked[0])]
  }

  /** Inside the hooks on the first request, before MixMonitor. */
  predicate Starting(call: Call, uid: string, pbx: string) {
    && call.hooked == [Args(call)] && IsRequest(Args(call)) && call.monitored == []
    && (Active(call) <==> call.pc.priority >= 3)
    && (call.pc.priority >= 4 ==> Lookup(call.vars, "RECORDING_SOURCE") == Args(call)[0] + "-" + Args(call)[1])
    && (call.pc.priority >= 5 ==> Lookup(call.vars, "RECORDING_POLICY") == Args(call)[2])
    && (call.pc.priority >= 6 ==> Lookup(call.vars, "RECORDING_FILE") == RecordingName(uid, pbx, Args(call)))
  }

  predicate InHooks(call: Call) { call.pc.context == RECORDING_HOOKS }

  predicate FramesOutside(stack: seq<Frame>) {
    forall f | f in stack :: f.back.context != RECORDING_HOOKS
  }

  /** What holds of a call after every priority it runs. */
  predicate Consistent(call: Call, uid: string, pbx: string) {
    && Lookup(call.vars, "UNIQUEID") == uid && Lookup(call.vars, "LOCAL_PBX") == pbx
    && FramesOutside(call.stack)
    && (!InHooks(call) ==> Settled(call, uid, pbx))
    && (InHooks(call) ==>
          && call.pc.exten == "s" && call.pc.priority <= 8 && call.stack != []
          && if call.pc.priority <= 7 && !(call.pc.priority <= 1 && Active(call)) then Starting(call, uid, pbx)
             else Settled(call, uid, pbx))
  }

  /** Outside the hooks, an application that leaves the recording variables and histories alone. */
  predicate LeavesRecordingAlone(call: Call, next: Call) {
    && next.hooked == call.hooked && next.monitored == call.monitored && !InHooks(next) && FramesOutside(next.stack)
    && Active(next) == Active(call)
    && Lookup(next.vars, "UNIQUEID") == Lookup(call.vars, "UNIQUEID")
    && Lookup(next.vars, "LOCAL_PBX") == Lookup(call.vars, "LOCAL_PBX")
  }

  lemma AloneKeeps(call: Call, next: Call, uid: string, pbx: string)
    requires Consistent(call, uid, pbx) && !InHooks(call) && LeavesRecordingAlone(call, next)
    ensures Consistent(next, uid, pbx)
  {
  }

  lemma HarmlessLeavesAlone(lines: seq<Line>, oracle: Oracle, call: Call, app: App)
    requires !InHooks(call) && FramesOutside(call.stack)
    requires Harmless(true, app) && !app.Gosub? && !app.Return?
    ensures LeavesRecordingAlone(call, Execute(lines, oracle, call, app))
  {
  }

  lemma ReturnLeavesAlone(lines: seq<Line>, oracle: Oracle, call: Call)
    requires !InHooks(call) && FramesOutside(call.stack)
    ensures LeavesRecordingAlone(call, Execute(lines, oracle, call, Return))
  {
    if call.stack != [] { assert call.stack[0] in call.stack; }
  }

  lemma GosubKeeps(lines: seq<Line>, oracle: Oracle, call: Call, app: App, uid: string, pbx: string)
    requires Consistent(call, uid, pbx) && !InHooks(call)
    requires app.Gosub? && Harmless(true, app)
    ensures Consistent(Execute(lines, oracle, call, app), uid, pbx)
  {
    if Steps(lines, app.context, app.exten) == [] {
    } else if app.context == RECORDING_HOOKS {
      HookCallKeeps(lines, oracle, call, app.args, uid, pbx);
    } else {
      AloneKeeps(call, Execute(lines, oracle, call, app), uid, pbx);
    }
  }

  lemma HookCallKeeps(lines: seq<Line>, oracle: Oracle, call: Call, args: seq<Expr>, uid: string, pbx: string)
    requires Consistent(call, uid, pbx) && !InHooks(call) && AsksFor(args)
    requires Steps(lines, RECORDING_HOOKS, "s") != []
    ensures Consistent(Execute(lines, oracle, call, Gosub(RECORDING_HOOKS, "s", args)), uid, pbx)
  {
    var next := Execute(lines, oracle, call, Gosub(RECORDING_HOOKS, "s", args));
    assert EvalArgs(call, args) == [args[0].text, args[1].text, args[2].text];
    assert Args(next) == EvalArgs(call, args);
    if call.hooked == [] {
      assert next.hooked == [EvalArgs(call, args)];
    } else {
      assert next.hooked[0] == call.hooked[0];
    }
  }

  lemma OutsideKeeps(lines: seq<Line>, oracle: Oracle, call: Call, app: App, uid: string, pbx: string)
    requires Consistent(call, uid, pbx) && !InHooks(call) && Harmless(true, app)
    ensures Consistent(Execute(lines, oracle, call, app), uid, pbx)
  {
    if app.Gosub? {
      GosubKeeps(lines, oracle, call, app, uid, pbx);
    } else {
      if app.Return? { ReturnLeavesAlone(lines, oracle, call); }
      else { HarmlessLeavesAlone(lines, oracle, call, app); }
      AloneKeeps(call, Execute(lines, oracle, call, app), uid, pbx);
    }
  }

  /** What MixMonitor is started on. */
  function HookTarget(): Expr { Joined([Text(RECORDING_ROOT), Text("/"), Variable("RECORDING_FILE")]) }

  /** The priorities of the hooks. */
  lemma HookApps()
    ensures var steps := HookSteps();
            && |steps| == 9 && FindLabel(steps, "done") == Some(8)
            && steps[0].app == NoOp && steps[8].app == Return
            && steps[1].app == GotoIf(Variable("RECORDING_ACTIVE"), Text("1"), "done")
            && steps[2].app == Set("RECORDING_ACTIVE", Text("1"))
            && steps[3].app == Set("RECORDING_SOURCE", Joined([Arg(1), Text("-"), Arg(2)]))
            && steps[4].app == Set("RECORDING_POLICY", Arg(3))
            && steps[5].app == Set("RECORDING_FILE", HOOK_FILE)
            && steps[6].app.SetCdr?
            && steps[7].app == MixMonitor(HookTarget())
  {
    HookTags();
  }

  lemma HookTags()
    ensures |HookSteps()| == 9 && FindLabel(HookSteps(), "done") == Some(8)
  {
    var steps := HookSteps();
    forall j | 0 <= j < 8 ensures steps[j].tag == None { }
    FirstTag(steps, "done", 8);
  }

  /** Entering and leaving. */
  lemma HookEnters(lines: seq<Line>, oracle: Oracle, call: Call, uid: string, pbx: string)
    requires Consistent(call, uid, pbx) && InHooks(call)
    requires FindLabel(Steps(lines, RECORDING_HOOKS, "s"), "done") == Some(8)
    ensures call.pc.priority == 0 ==> Consistent(Execute(lines, oracle, call, NoOp), uid, pbx)
    ensures call.pc.priority == 1 ==>
              Consistent(Execute(lines, oracle, call, GotoIf(Variable("RECORDING_ACTIVE"), Text("1"), "done")), uid,
                         pbx)
  {
  }

  lemma HookLeaves(lines: seq<Line>, oracle: Oracle, call: Call, uid: string, pbx: string)
    requires Consistent(call, uid, pbx) && InHooks(call) && call.pc.priority == 8
    ensures Consistent(Execute(lines, oracle, call, Return), uid, pbx)
  {
    assert call.stack[0] in call.stack;
  }

  lemma EvalPair(call: Call, a: Expr, b: Expr, c: Expr)
    ensures Eval(call, Joined([a, b, c])) == Eval(call, a) + Eval(call, b) + Eval(call, c)
  {
    EvalAllCons(call, a, [b, c]);
    EvalAllCons(call, b, [c]);
    EvalAllCons(call, c, []);
  }

  lemma EvalAllCons(call: Call, e: Expr, rest: seq<Expr>)
    ensures EvalAll(call, [e] + rest) == Eval(call, e) + EvalAll(call, rest)
  {
    assert ([e] + rest)[1..] == rest;
  }

  /** A priority between the guard and MixMonitor: only variables change. */
  lemma AssignmentKeeps(call: Call, next: Call, uid: string, pbx: string)
    requires Consistent(call, uid, pbx) && InHooks(call) && 2 <= call.pc.priority <= 6
    requires next == call.(pc := Next(call.pc), vars := next.vars) && Starting(next, uid, pbx)
    requires Lookup(next.vars, "UNIQUEID") == uid && Lookup(next.vars, "LOCAL_PBX") == pbx
    ensures Consistent(next, uid, pbx)
  {
  }

  lemma HookActiveKeeps(lines: seq<Line>, oracle: Oracle, call: Call, uid: string, pbx: string)
    requires Consistent(call, uid, pbx) && InHooks(call) && call.pc.priority == 2
    ensures Consistent(Execute(lines, oracle, call, Set("RECORDING_ACTIVE", Text("1"))), uid, pbx)
  {
    AssignmentKeeps(call, Execute(lines, oracle, call, Set("RECORDING_ACTIVE", Text("1"))), uid, pbx);
  }

  lemma HookPolicyKeeps(lines: seq<Line>, oracle: Oracle, call: Call, uid: string, pbx: string)
    requires Consistent(call, uid, pbx) && InHooks(call) && call.pc.priority == 4
    ensures Consistent(Execute(lines, oracle, call, Set("RECORDING_POLICY", Arg(3))), uid, pbx)
  {
    AssignmentKeeps(call, Execute(lines, oracle, call, Set("RECORDING_POLICY", Arg(3))), uid, pbx);
  }

  lemma HookCdrKeeps(lines: seq<Line>, oracle: Oracle, call: Call, app: App, uid: string, pbx: string)
    requires Consistent(call, uid, pbx) && InHooks(call) && call.pc.priority == 6 && app.SetCdr?
    ensures Consistent(Execute(lines, oracle, call, app), uid, pbx)
  {
    AssignmentKeeps(call, Execute(lines, oracle, call, app), uid, pbx);
  }

  lemma HookSourceKeeps(lines: seq<Line>, oracle: Oracle, call: Call, uid: string, pbx: string)
    requires Consistent(call, uid, pbx) && InHooks(call) && call.pc.priority == 3
    ensures Consistent(Execute(lines, oracle, call, Set("RECORDING_SOURCE", Joined([Arg(1), Text("-"), Arg(2)]))),
                       uid, pbx)
  {
    var source := Joined([Arg(1), Text("-"), Arg(2)]);
    EvalPair(call, Arg(1), Text("-"), Arg(2));
    AssignmentKeeps(call, Execute(lines, oracle, call, Set("RECORDING_SOURCE", source)), uid, pbx);
  }

  lemma HookFileIs(call: Call)
    ensures Eval(call, HOOK_FILE)
              == Lookup(call.vars, "UNIQUEID") + ("-" + (Lookup(call.vars, "LOCAL_PBX") + ("-"
                 + (Lookup(call.vars, "RECORDING_SOURCE") + ("-" + (Lookup(call.vars, "RECORDING_POLICY") + ".wav"))))))
  {
    EvalAllCons(call, Variable("UNIQUEID"), [Text("-"), Variable("LOCAL_PBX"), Text("-"), Variable("RECORDING_SOURCE"),
                                             Text("-"), Variable("RECORDING_POLICY"), Text(".wav")]);
    EvalAllCons(call, Text("-"), [Variable("LOCAL_PBX"), Text("-"), Variable("RECORDING_SOURCE"),
                                  Text("-"), Variable("RECORDING_POLICY"), Text(".wav")]);
    EvalAllCons(call, Variable("LOCAL_PBX"), [Text("-"), Variable("RECORDING_SOURCE"),
                                              Text("-"), Variable("RECORDING_POLICY"), Text(".wav")]);
    EvalAllCons(call, Text("-"), [Variable("RECORDING_SOURCE"), Text("-"), Variable("RECORDING_POLICY"), Text(".wav")]);
    HookFileTailIs(call);
  }

  lemma HookFileTailIs(call: Call)
    ensures EvalAll(call, [Variable("RECORDING_SOURCE"), Text("-"), Variable("RECORDING_POLICY"), Text(".wav")])
              == Lookup(call.vars, "RECORDING_SOURCE") + ("-" + (Lookup(call.vars, "RECORDING_POLICY") + ".wav"))
  {
    EvalAllCons(call, Variable("RECORDING_SOURCE"), [Text("-"), Variable("RECORDING_POLICY"), Text(".wav")]);
    EvalAllCons(call, Text("-"), [Variable("RECORDING_POLICY"), Text(".wav")]);
    EvalAllCons(call, Variable("RECORDING_POLICY"), [Text(".wav")]);
    EvalAllCons(call, Text(".wav"), []);
  }

  lemma NameIs(uid: string, pbx: string, a: string, b: string, c: string)
    ensures uid + ("-" + (pbx + ("-" + ((a + "-" + b) + ("-" + (c + ".wav"))))))
              == RecordingName(uid, pbx, [a, b, c])
  {
  }

  lemma HookFileKeeps(lines: seq<Line>, oracle: Oracle, call: Call, uid: string, pbx: string)
    requires Consistent(call, uid, pbx) && InHooks(call) && call.pc.priority == 5
    ensures Consistent(Execute(lines, oracle, call, Set("RECORDING_FILE", HOOK_FILE)), uid, pbx)
  {
    HookFileIs(call);
    HookFileNamed(call, uid, pbx);
    AssignmentKeeps(call, Execute(lines, oracle, call, Set("RECORDING_FILE", HOOK_FILE)), uid, pbx);
  }

  lemma HookFileNamed(call: Call, uid: string, pbx: string)
    requires Consistent(call, uid, pbx) && InHooks(call) && call.pc.priority == 5
    ensures uid + ("-" + (pbx + ("-" + (Lookup(call.vars, "RECORDING_SOURCE")
              + ("-" + (Lookup(call.vars, "RECORDING_POLICY") + ".wav")))))) == RecordingName(uid, pbx, Args(call))
  {
    var args := Args(call);
    NameIs(uid, pbx, args[0], args[1], args[2]);
    assert args == [args[0], args[1], args[2]];
  }

  lemma HookMonitorKeeps(lines: seq<Line>, oracle: Oracle, call: Call, uid: string, pbx: string)
    requires Consistent(call, uid, pbx) && InHooks(call) && call.pc.priority == 7
    ensures Consistent(Execute(lines, oracle, call, MixMonitor(HookTarget())), uid, pbx)
  {
    EvalPair(call, Text(RECORDING_ROOT), Text("/"), Variable("RECORDING_FILE"));
    var next := Execute(lines, oracle, call, MixMonitor(HookTarget()));
    assert next.monitored == [FileFor(uid, pbx, next.hooked[0])];
    assert Settled(next, uid, pbx);
  }

  lemma InsideKeeps(lines: seq<Line>, oracle: Oracle, call: Call, uid: string, pbx: string)
    requires Consistent(call, uid, pbx) && InHooks(call) && Steps(lines, RECORDING_HOOKS, "s") == HookSteps()
    ensures Consistent(Execute(lines, oracle, call, HookSteps()[call.pc.priority].app), uid, pbx)
  {
    HookApps();
    var p := call.pc.priority;
    if p <= 1 { HookEnters(lines, oracle, call, uid, pbx); }
    else if p == 2 { HookActiveKeeps(lines, oracle, call, uid, pbx); }
    else if p == 3 { HookSourceKeeps(lines, oracle, call, uid, pbx); }
    else if p == 4 { HookPolicyKeeps(lines, oracle, call, uid, pbx); }
    else if p == 5 { HookFileKeeps(lines, oracle, call, uid, pbx); }
    else if p == 6 { HookCdrKeeps(lines, oracle, call, HookSteps()[6].app, uid, pbx); }
    else if p == 7 { HookMonitorKeeps(lines, oracle, call, uid, pbx); }
    else { HookLeaves(lines, oracle, call, uid, pbx); }
  }

  lemma TickKeeps(plan: Plan, oracle: Oracle, call: Call, uid: string, pbx: string)
    requires Consistent(call, uid, pbx)
    ensures Consistent(Tick(Conf(plan), oracle, call), uid, pbx)
  {
    if InHooks(call) {
      TickInsideKeeps(plan, oracle, call, uid, pbx);
    } else {
      TickOutsideKeeps(plan, oracle, call, uid, pbx);
    }
  }

  lemma TickInsideKeeps(plan: Plan, oracle: Oracle, call: Call, uid: string, pbx: string)
    requires Consistent(call, uid, pbx) && InHooks(call)
    ensures Consistent(Tick(Conf(plan), oracle, call), uid, pbx)
  {
    HooksLoad(plan, "s");
    InsideTickKeeps(Conf(plan), oracle, call, uid, pbx);
  }

  lemma InsideTickKeeps(lines: seq<Line>, oracle: Oracle, call: Call, uid: string, pbx: string)
    requires Consistent(call, uid, pbx) && InHooks(call)
    requires Steps(lines, RECORDING_HOOKS, "s") == HookSteps() || Steps(lines, RECORDING_HOOKS, "s") == []
    ensures Consistent(Tick(lines, oracle, call), uid, pbx)
  {
    if Steps(lines, RECORDING_HOOKS, "s") != [] {
      HookApps();
      InsideKeeps(lines, oracle, call, uid, pbx);
    }
  }

  lemma TickOutsideKeeps(plan: Plan, oracle: Oracle, call: Call, uid: string, pbx: string)
    requires Consistent(call, uid, pbx) && !InHooks(call)
    ensures Consistent(Tick(Conf(plan), oracle, call), uid, pbx)
  {
    var steps := Steps(Conf(plan), call.pc.context, call.pc.exten);
    if call.pc.priority < |steps| {
      OthersHarmless(plan, call.pc.context, call.pc.exten, call.pc.priority);
      OutsideKeeps(Conf(plan), oracle, call, steps[call.pc.priority].app, uid, pbx);
    }
  }

  /** Every priority of these lines keeps a consistent call consistent. */
  ghost predicate KeepsConsistent(lines: seq<Line>, oracle: Oracle, uid: string, pbx: string) {
    forall call :: Consistent(call, uid, pbx) ==> Consistent(Tick(lines, oracle, call), uid, pbx)
  }

  lemma {:induction false} RunKeeps(lines: seq<Line>, oracle: Oracle, call: Call, n: nat, uid: string, pbx: string)
    requires Consistent(call, uid, pbx) && KeepsConsistent(lines, oracle, uid, pbx)
    ensures Consistent(Run(lines, oracle, call, n), uid, pbx)
    decreases n
  {
    if n > 0 { RunKeeps(lines, oracle, Tick(lines, oracle, call), n - 1, uid, pbx); }
  }

  /** A call as it comes in from a channel: outside the hooks, nothing recorded yet. */
  predicate Arrives(call: Call) {
    !InHooks(call) && FramesOutside(call.stack) && call.hooked == [] && call.monitored == []
    && "RECORDING_ACTIVE" !in call.vars
  }

  /** Wherever a call enters the generated dialplan, whatever the world answers and however long it runs:
      MixMonitor was started at most once, and outside the hooks exactly once if some source asked for a
      recording, for the first that asked, and never if none did; and only extensions, routes and queues
      whose policy records ever ask. */
  lemma MonitoredOnce(plan: Plan, oracle: Oracle, call: Call, n: nat)
    requires Arrives(call)
    ensures var now := Run(Conf(plan), oracle, call, n);
            && |now.monitored| <= 1
            && (forall i | 0 <= i < |now.hooked| :: IsRequest(now.hooked[i]))
            && (!InHooks(now) ==>
                  now.monitored == if now.hooked == [] then []
                                   else [FileFor(Lookup(call.vars, "UNIQUEID"), Lookup(call.vars, "LOCAL_PBX"),
                                                 now.hooked[0])])
  {
    var uid, pbx := Lookup(call.vars, "UNIQUEID"), Lookup(call.vars, "LOCAL_PBX");
    forall c | Consistent(c, uid, pbx) ensures Consistent(Tick(Conf(plan), oracle, c), uid, pbx) {
      TickKeeps(plan, oracle, c, uid, pbx);
    }
    RunKeeps(Conf(plan), oracle, call, n, uid, pbx);
  }
}
