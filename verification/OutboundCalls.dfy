/** An outbound call through the generated file, from its route's first priority to its hangup: the
    caller ID it presents, the trunks it tries and the recording it gets. */
module OutboundCalls {
  import opened Wrappers
  import opened Dialplan
  import opened CallerId
  import opened RingGroups
  import opened ExtensionsConf
  import opened ConfFacts
  import opened ConfTargets
  import opened TrunkOrder
  import opened Recording

  // ----- the hooks come back ---------------------------------------------------------------------------

  /** A priority of the hooks changes variables and starts the recording, and goes on; the last returns. */
  lemma HookTick(lines: seq<Line>, oracle: Oracle, call: Call) returns (next: Call)
    requires call.live && call.pc.context == RECORDING_HOOKS && call.pc.exten == "s" && call.pc.priority <= 8
    requires call.stack != [] && Steps(lines, RECORDING_HOOKS, "s") == HookSteps()
    ensures next == Tick(lines, oracle, call)
    ensures call.pc.priority == 8 ==> next == call.(pc := call.stack[0].back, stack := call.stack[1..])
    ensures call.pc.priority < 8 ==>
              next == call.(pc := next.pc, vars := next.vars, monitored := next.monitored)
              && next.pc == call.pc.(priority := next.pc.priority) && call.pc.priority < next.pc.priority <= 8
  {
    HookAppKinds();
    next := Tick(lines, oracle, call);
    TickRuns(lines, oracle, call, HookSteps());
    GoesOn(lines, oracle, call, HookSteps()[call.pc.priority].app);
  }

  /** An application that the hooks use before they return. */
  predicate Inner(app: App) { app.NoOp? || app.Set? || app.SetCdr? || app.MixMonitor? || app.GotoIf? }

  lemma HookAppKinds()
    ensures var steps := HookSteps();
            && |steps| == 9 && steps[8].app == Return
            && (forall i | 0 <= i < 8 :: Inner(steps[i].app))
            && forall i | 0 <= i < 8 && steps[i].app.GotoIf? :: i == 1 && FindLabel(steps, steps[i].app.tag) == Some(8)
  {
    HookApps();
  }

  lemma TickRuns(lines: seq<Line>, oracle: Oracle, call: Call, steps: seq<Step>)
    requires call.live && Steps(lines, call.pc.context, call.pc.exten) == steps && call.pc.priority < |steps|
    ensures Tick(lines, oracle, call) == Execute(lines, oracle, call, steps[call.pc.priority].app)
  {
  }

  /** What the applications of the hooks leave alone. */
  lemma GoesOn(lines: seq<Line>, oracle: Oracle, call: Call, app: App)
    requires Inner(app) || app.Return?
    requires app.GotoIf? ==> FindLabel(Steps(lines, call.pc.context, call.pc.exten), app.tag) == Some(8)
    ensures var next := Execute(lines, oracle, call, app);
            if app.Return? then call.stack != [] ==> next == call.(pc := call.stack[0].back, stack := call.stack[1..])
            else next == call.(pc := next.pc, vars := next.vars, monitored := next.monitored)
                 && (next.pc == Next(call.pc) || (app.GotoIf? && next.pc == call.pc.(priority := 8)))
  {
  }

  lemma {:induction false} HooksReturn(lines: seq<Line>, oracle: Oracle, call: Call) returns (end: Call)
    requires call.live && call.pc.context == RECORDING_HOOKS && call.pc.exten == "s" && call.pc.priority <= 8
    requires call.stack != [] && Steps(lines, RECORDING_HOOKS, "s") == HookSteps()
    ensures Reaches(lines, oracle, call, end)
    ensures end == call.(pc := call.stack[0].back, stack := call.stack[1..], vars := end.vars,
                         monitored := end.monitored)
    decreases 8 - call.pc.priority
  {
    var next := HookTick(lines, oracle, call);
    if call.pc.priority == 8 {
      end := next;
      Ticks(lines, oracle, end, end);
    } else {
      end := HooksReturn(lines, oracle, next);
    }
    Ticks(lines, oracle, call, end);
  }

  // ----- trunks in turn ----------------------------------------------------------------------------------

  /** The trunks a route tries: the next one whenever the call comes back from the one before. */
  function Attempted(links: seq<RouteTrunk>, oracle: Oracle, k: nat): seq<string> {
    if links == [] then []
    else [links[0].trunk.target] + (if oracle.dial(k) == Answered(false) then []
                                    else Attempted(links[1..], oracle, k + 1))
  }

  /** The attempts are the first links' trunks, in their order: the call came back from every one before the
      last, and stayed with the last unless all were tried. */
  lemma {:induction false} AttemptedIsAPrefix(links: seq<RouteTrunk>, oracle: Oracle, k: nat)
    requires links != []
    ensures var tried := Attempted(links, oracle, k);
            && 0 < |tried| <= |links|
            && (forall i | 0 <= i < |tried| :: tried[i] == links[i].trunk.target)
            && (forall i | k <= i < k + |tried| - 1 :: oracle.dial(i) != Answered(false))
            && (|tried| < |links| ==> oracle.dial(k + |tried| - 1) == Answered(false))
  {
    if |links| > 1 && oracle.dial(k) != Answered(false) {
      AttemptedIsAPrefix(links[1..], oracle, k + 1);
    }
  }

  ghost predicate DialProgram(steps: seq<Step>, links: seq<RouteTrunk>, base: nat) {
    && |steps| == base + |links| + 1
    && steps[base + |links|].app == Hangup
    && forall k | 0 <= k < |links| :: steps[base + k].app == Dial(links[k].trunk.target)
  }

  lemma {:induction false} DialsRun(lines: seq<Line>, oracle: Oracle, call: Call, steps: seq<Step>,
                                    links: seq<RouteTrunk>,
                                    base: nat, k: nat) returns (end: Call)
    requires k <= |links| && DialProgram(steps, links, base) && Stands(lines, call, steps, base + k)
    ensures Reaches(lines, oracle, call, end)
    ensures EndsAfterDialing(call, end, Attempted(links[k..], oracle, |call.dialed|))
    decreases |links| - k
  {
    if k == |links| {
      HangsUp(lines, oracle, call, steps, base + k);
      end := call.(live := false);
    } else {
      var target := links[k].trunk.target;
      var next := DialOne(lines, oracle, call, steps, base + k, target);
      AttemptedFrom(links, oracle, |call.dialed|, k);
      if next.live {
        end := DialsRun(lines, oracle, next, steps, links, base, k + 1);
        DialingAdds(call, next, end, [target], Attempted(links[k + 1..], oracle, |next.dialed|));
      } else {
        end := next;
        Ticks(lines, oracle, end, end);
      }
      Ticks(lines, oracle, call, end);
    }
  }

  lemma DialOne(lines: seq<Line>, oracle: Oracle, call: Call, steps: seq<Step>, p: nat, target: string)
      returns (next: Call)
    requires p < |steps| && steps[p].app == Dial(target) && Stands(lines, call, steps, p)
    ensures next == Tick(lines, oracle, call)
    ensures next.live <==> oracle.dial(|call.dialed|) != Answered(false)
    ensures next.live ==> Stands(lines, next, steps, p + 1) && DialedOnly(call, next, [target])
    ensures !next.live ==> EndsAfterDialing(call, next, [target])
  {
    next := Tick(lines, oracle, call);
  }

  lemma AttemptedFrom(links: seq<RouteTrunk>, oracle: Oracle, n: nat, k: nat)
    requires k < |links|
    ensures Attempted(links[k..], oracle, n)
              == [links[k].trunk.target]
                + (if oracle.dial(n) == Answered(false) then [] else Attempted(links[k + 1..], oracle, n + 1))
  {
    assert links[k..][1..] == links[k + 1..];
  }

  // ----- the priorities of a route -------------------------------------------------------------------------

  function RouteProgram(loc: Location, r: Route): seq<Step> {
    RouteTailPlainly(true, loc, r);
    BlockSteps(NoOp, RouteTail(loc, r))
  }

  function HookRequest(r: Route): App {
    Gosub(RECORDING_HOOKS, "s", [Text("route"), Text(r.slug), Text(r.policy)])
  }

  /** Behind the NoOp and the caller ID lines: the message and the hangup, or the dials. */
  ghost predicate LaysOut(steps: seq<Step>, r: Route, c: nat) {
    var links := ActiveRouteTrunks(r.trunks);
    if links == [] then |steps| == c + 2 && steps[c].app == Other("Playback") && steps[c + 1].app == Hangup
    else if Recorded(r.policy) then |steps| > c && steps[c].app == HookRequest(r) && DialProgram(steps, links, c + 1)
    else DialProgram(steps, links, c)
  }

  lemma RouteLayout(loc: Location, r: Route)
    ensures var steps := RouteProgram(loc, r);
            var c := 1 + |RouteSteps(loc, r.source, r.custom)|;
            && c <= |steps| && steps[0].app == NoOp && steps[1..c] == RouteSteps(loc, r.source, r.custom)
            && LaysOut(steps, r, c)
  {
    RouteProgramIs(loc, r);
    LayoutOf(RouteCallerIdLines(loc, r.source, r.custom), r);
  }

  lemma LayoutOf(own: seq<Line>, r: Route)
    requires AllSame(own + RouteRest(r))
    ensures AllSame(own)
    ensures var steps := BlockSteps(NoOp, own + RouteRest(r)); var c := 1 + |own|;
            && c <= |steps| && steps[0].app == NoOp && steps[1..c] == AsSteps(own) && LaysOut(steps, r, c)
  {
    ProgramOf(own, RouteRest(r));
    RestLaysOut(BlockSteps(NoOp, own + RouteRest(r)), r, 1 + |own|);
  }

  lemma RouteProgramIs(loc: Location, r: Route)
    ensures var lines := RouteCallerIdLines(loc, r.source, r.custom) + RouteRest(r);
            AllSame(lines) && RouteProgram(loc, r) == BlockSteps(NoOp, lines)
  {
    RouteTailPlainly(true, loc, r);
    RouteParts(loc, r);
  }

  /** A route's lines behind its caller ID lines. */
  function RouteRest(r: Route): seq<Line> {
    var links := ActiveRouteTrunks(r.trunks);
    if links == [] then [Same(None, Other("Playback")), Same(None, Hangup)]
    else HookLines("route", r.slug, r.policy) + DialLines(links) + [Same(None, Hangup)]
  }

  lemma RouteParts(loc: Location, r: Route)
    ensures RouteTail(loc, r) == RouteCallerIdLines(loc, r.source, r.custom) + RouteRest(r)
  {
  }

  lemma RestLaysOut(steps: seq<Step>, r: Route, c: nat)
    requires |steps| == c + |RouteRest(r)|
    requires forall i | 0 <= i < |RouteRest(r)| :: steps[c + i].app == RouteRest(r)[i].app
    ensures LaysOut(steps, r, c)
  {
    if ActiveRouteTrunks(r.trunks) == [] {
      assert steps[c + 0].app == RouteRest(r)[0].app && steps[c + 1].app == RouteRest(r)[1].app;
    } else {
      DialsLayOut(steps, r, c);
    }
  }

  lemma DialsLayOut(steps: seq<Step>, r: Route, c: nat)
    requires ActiveRouteTrunks(r.trunks) != [] && |steps| == c + |RouteRest(r)|
    requires forall i | 0 <= i < |RouteRest(r)| :: steps[c + i].app == RouteRest(r)[i].app
    ensures LaysOut(steps, r, c)
  {
    var hooks := HookLines("route", r.slug, r.policy);
    DialsFollow(steps, hooks, ActiveRouteTrunks(r.trunks), RouteRest(r), c);
    if hooks != [] { assert steps[c + 0].app == RouteRest(r)[0].app == hooks[0].app; }
  }

  lemma DialsFollow(steps: seq<Step>, hooks: seq<Line>, links: seq<RouteTrunk>, rest: seq<Line>, c: nat)
    requires AllSame(hooks) && rest == hooks + DialLines(links) + [Same(None, Hangup)] && |steps| == c + |rest|
    requires forall i | 0 <= i < |rest| :: steps[c + i].app == rest[i].app
    ensures DialProgram(steps, links, c + |hooks|) && forall k | 0 <= k < |hooks| :: rest[k] == hooks[k]
  {
    DialsAreProgram(hooks, links);
    assert steps[c + (|hooks| + |links|)].app == rest[|hooks| + |links|].app;
    forall k | 0 <= k < |links| ensures steps[c + |hooks| + k].app == Dial(links[k].trunk.target) {
      assert steps[c + (|hooks| + k)].app == rest[|hooks| + k].app;
    }
  }

  /** The priorities of lines in two parts, behind a NoOp. */
  lemma ProgramOf(own: seq<Line>, rest: seq<Line>)
    requires AllSame(own + rest)
    ensures AllSame(own) && AllSame(rest)
    ensures var steps := BlockSteps(NoOp, own + rest);
            && |steps| == 1 + |own| + |rest| && steps[0].app == NoOp && steps[1..1 + |own|] == AsSteps(own)
            && forall i | 0 <= i < |rest| :: steps[1 + |own| + i].app == rest[i].app
  {
    forall l | l in own ensures l in own + rest { }
    forall l | l in rest ensures l in own + rest { }
  }

  lemma DialsAreProgram(hooks: seq<Line>, links: seq<RouteTrunk>)
    requires AllSame(hooks)
    ensures var rest := hooks + DialLines(links) + [Same(None, Hangup)];
            && |rest| == |hooks| + |links| + 1 && rest[|hooks| + |links|] == Same(None, Hangup)
            && (forall k | 0 <= k < |links| :: rest[|hooks| + k] == Same(None, Dial(links[k].trunk.target)))
            && forall k | 0 <= k < |hooks| :: rest[k] == hooks[k]
  {
  }

  // ----- the call --------------------------------------------------------------------------------------------

  lemma ReachKeeps(lines: seq<Line>, oracle: Oracle, a: Call, b: Call, uid: string, pbx: string)
    requires Reaches(lines, oracle, a, b) && Consistent(a, uid, pbx) && KeepsConsistent(lines, oracle, uid, pbx)
    ensures Consistent(b, uid, pbx)
  {
    var n: nat :| Run(lines, oracle, a, n) == b;
    RunKeeps(lines, oracle, a, n, uid, pbx);
  }

  /** What the route asks the hooks for. */
  function Requests(r: Route): seq<seq<string>> {
    if ActiveRouteTrunks(r.trunks) != [] && Recorded(r.policy) then [["route", r.slug, r.policy]] else []
  }

  /** `end` is `call` hung up where it was, presenting `caller`, having tried `targets` and asked for `requests`. */
  predicate EndsAs(call: Call, end: Call, caller: string, targets: seq<string>, requests: seq<seq<string>>) {
    && end.pc.context == call.pc.context
    && end == call.(pc := end.pc, live := false, caller := caller, vars := end.vars, monitored := end.monitored,
                    dialed := call.dialed + targets, hooked := call.hooked + requests)
  }

  /** `back` is `call` further on, having asked for `requests`. */
  predicate AskedOnly(call: Call, back: Call, requests: seq<seq<string>>) {
    && back.pc.context == call.pc.context
    && back == call.(pc := back.pc, vars := back.vars, monitored := back.monitored, hooked := call.hooked + requests)
  }

  lemma AskedThenDialed(call: Call, back: Call, end: Call, requests: seq<seq<string>>, targets: seq<string>)
    requires AskedOnly(call, back, requests) && EndsAfterDialing(back, end, targets)
    ensures EndsAs(call, end, call.caller, targets, requests)
  {
  }

  lemma JustDialed(call: Call, end: Call, targets: seq<string>)
    requires EndsAfterDialing(call, end, targets)
    ensures EndsAs(call, end, call.caller, targets, [])
  {
    assert call.hooked + [] == call.hooked;
  }

  /** From the priority after the caller ID lines to the hangup. */
  lemma AfterCallerId(lines: seq<Line>, oracle: Oracle, call: Call, loc: Location, r: Route) returns (end: Call)
    requires Stands(lines, call, RouteProgram(loc, r), 1 + |RouteSteps(loc, r.source, r.custom)|)
    requires ActiveRouteTrunks(r.trunks) != [] && Recorded(r.policy) ==>
             Steps(lines, RECORDING_HOOKS, "s") == HookSteps()
    ensures Reaches(lines, oracle, call, end)
    ensures EndsAs(call, end, call.caller, Attempted(ActiveRouteTrunks(r.trunks), oracle, |call.dialed|), Requests(r))
  {
    RouteLayout(loc, r);
    var steps := RouteProgram(loc, r);
    var links := ActiveRouteTrunks(r.trunks);
    var c := 1 + |RouteSteps(loc, r.source, r.custom)|;
    assert links[0..] == links;
    if links == [] {
      end := NobodyToDial(lines, oracle, call, steps, c);
    } else if Recorded(r.policy) {
      var back := AskHooks(lines, oracle, call, steps, c, "route", r.slug, r.policy);
      end := DialsRun(lines, oracle, back, steps, links, c + 1, 0);
      AskedThenDialed(call, back, end, Requests(r), Attempted(links, oracle, |call.dialed|));
      Joins(lines, oracle, call, back, end);
    } else {
      end := DialsRun(lines, oracle, call, steps, links, c, 0);
      JustDialed(call, end, Attempted(links, oracle, |call.dialed|));
    }
  }

  lemma NobodyToDial(lines: seq<Line>, oracle: Oracle, call: Call, steps: seq<Step>, c: nat) returns (end: Call)
    requires Stands(lines, call, steps, c) && |steps| == c + 2
    requires steps[c].app == Other("Playback") && steps[c + 1].app == Hangup
    ensures Reaches(lines, oracle, call, end) && EndsAs(call, end, call.caller, [], [])
  {
    var next := Tick(lines, oracle, call);
    HangsUp(lines, oracle, next, steps, c + 1);
    end := next.(live := false);
    Ticks(lines, oracle, call, end);
  }

  lemma AskHooks(lines: seq<Line>, oracle: Oracle, call: Call, steps: seq<Step>, c: nat, kind: string, id: string,
                 policy: string) returns (back: Call)
    requires Stands(lines, call, steps, c) && c < |steps|
    requires steps[c].app == Gosub(RECORDING_HOOKS, "s", [Text(kind), Text(id), Text(policy)])
    requires Steps(lines, RECORDING_HOOKS, "s") == HookSteps()
    ensures Reaches(lines, oracle, call, back) && Stands(lines, back, steps, c + 1)
    ensures AskedOnly(call, back, [[kind, id, policy]])
  {
    var entered := Tick(lines, oracle, call);
    assert EvalArgs(call, steps[c].app.args) == [kind, id, policy];
    back := HooksReturn(lines, oracle, entered);
    Ticks(lines, oracle, call, back);
  }

  lemma CallerIdPart(plan: Plan, oracle: Oracle, call: Call, r: Route) returns (next: Call)
    requires r in plan.routes + plan.emergencyRoutes && DistinctNumbers(plan.location.extensions)
    requires Stands(Conf(plan), call, RouteProgram(plan.location, r), 1)
    ensures Reaches(Conf(plan), oracle, call, next)
            && Stands(Conf(plan), next, RouteProgram(plan.location, r),
                      1 + |RouteSteps(plan.location, r.source, r.custom)|)
            && next == call.(pc := next.pc, caller := Presented(plan.location, r.source, r.custom, call.caller),
                             vars := next.vars)
            && next.pc.context == call.pc.context
  {
    var loc := plan.location;
    RouteLayout(loc, r);
    SubroutineThere(plan, r);
    CallerIdIsCompiledRight(Conf(plan), oracle, call, loc, r.source, r.custom);
    var vars :| SameButScratch(vars, call.vars)
                && Reaches(Conf(plan), oracle, call, PastCallerId(call, loc, r.source, r.custom, vars));
    next := PastCallerId(call, loc, r.source, r.custom, vars);
  }

  lemma SubroutineThere(plan: Plan, r: Route)
    requires r in plan.routes + plan.emergencyRoutes
    ensures r.source == ExtensionDid ==>
              Steps(Conf(plan), SUBROUTINE, "s") == Steps(SubroutineLines(plan.location), SUBROUTINE, "s")
  {
    if r.source == ExtensionDid {
      SubroutineInFile(plan);
      SubroutineLoads(plan.location);
    }
  }

  lemma HooksThere(plan: Plan, i: nat)
    requires i < |plan.routes| && Requests(plan.routes[i]) != []
    ensures Steps(Conf(plan), RECORDING_HOOKS, "s") == HookSteps()
  {
    var r := plan.routes[i];
    HooksLoad(plan, "s");
    var l := Same(None, HookRequest(r));
    assert l in HookLines("route", r.slug, r.policy);
    assert l in RouteTail(plan.location, r);
    assert l in RouteLines(plan.location, r);
    InEach((r: Route) => RouteLines(plan.location, r), plan.routes, i, l);
    assert l in OutboundLines(plan);
    InBeforeHooks(plan, l);
  }

  lemma InBeforeHooks(plan: Plan, l: Line)
    requires l in OutboundLines(plan) && IsHookCall(l)
    ensures CallsHooks(BeforeHooks(plan))
  {
    assert l in BeforeSubroutine(plan);
    assert l in BeforeHooks(plan);
  }

  lemma {:induction false} InEach<T>(f: T -> seq<Line>, items: seq<T>, i: nat, l: Line)
    requires i < |items| && l in f(items[i])
    ensures l in Each(f, items)
  {
    if i < |items| - 1 { InEach(f, items[..|items| - 1], i, l); }
  }

  lemma PresentedThenEnds(call: Call, next: Call, end: Call, caller: string, targets: seq<string>,
                          requests: seq<seq<string>>)
    requires next == call.(pc := next.pc, caller := caller, vars := next.vars) && next.pc.context == call.pc.context
    requires EndsAs(next, end, caller, targets, requests)
    ensures EndsAs(call, end, caller, targets, requests)
  {
  }

  /** The route from its first priority on. */
  lemma RouteRuns(plan: Plan, oracle: Oracle, call: Call, r: Route) returns (end: Call)
    requires r in plan.routes + plan.emergencyRoutes && DistinctNumbers(plan.location.extensions)
    requires Stands(Conf(plan), call, RouteProgram(plan.location, r), 1)
    requires Requests(r) != [] ==> Steps(Conf(plan), RECORDING_HOOKS, "s") == HookSteps()
    ensures Reaches(Conf(plan), oracle, call, end)
            && EndsAs(call, end, Presented(plan.location, r.source, r.custom, call.caller),
                      Attempted(ActiveRouteTrunks(r.trunks), oracle, |call.dialed|), Requests(r))
  {
    var next := CallerIdPart(plan, oracle, call, r);
    end := AfterCallerId(Conf(plan), oracle, next, plan.location, r);
    PresentedThenEnds(call, next, end, next.caller, Attempted(ActiveRouteTrunks(r.trunks), oracle, |call.dialed|),
                      Requests(r));
    Joins(Conf(plan), oracle, call, next, end);
  }

  lemma EnterRoute(lines: seq<Line>, oracle: Oracle, call: Call, steps: seq<Step>) returns (entered: Call)
    requires Stands(lines, call, steps, 0) && steps != [] && steps[0].app == NoOp
    ensures entered == Tick(lines, oracle, call) && Stands(lines, entered, steps, 1)
    ensures entered == call.(pc := entered.pc) && entered.pc.context == call.pc.context
  {
    entered := Tick(lines, oracle, call);
  }

  lemma RouteEnds(plan: Plan, oracle: Oracle, call: Call, i: nat) returns (end: Call)
    requires OnlyOne((r: Route) => r.pattern, plan.routes, i) && DistinctNumbers(plan.location.extensions)
    requires call.live && call.pc == Pc("outbound", plan.routes[i].pattern, 0)
    ensures var r := plan.routes[i];
            && Reaches(Conf(plan), oracle, call, end)
            && EndsAs(call, end, Presented(plan.location, r.source, r.custom, call.caller),
                      Attempted(ActiveRouteTrunks(r.trunks), oracle, |call.dialed|), Requests(r))
  {
    RouteInFile(plan, i);
    if Requests(plan.routes[i]) != [] { HooksThere(plan, i); }
    var entered := EnterRoute(Conf(plan), oracle, call, RouteProgram(plan.location, plan.routes[i]));
    assert plan.routes[i] in plan.routes + plan.emergencyRoutes;
    end := RouteRuns(plan, oracle, entered, plan.routes[i]);
    Ticks(Conf(plan), oracle, call, end);
  }

  /** A call sent to an outbound route of the file presents what the Python reference selects, tries the
      active trunks in order until one takes the call, asks for a recording exactly when the policy says so
      and there is a trunk to try, and is recorded once if it or anything before asked, for the first that did. */
  lemma OutboundCall(plan: Plan, oracle: Oracle, call: Call, i: nat, uid: string, pbx: string)
    requires OnlyOne((r: Route) => r.pattern, plan.routes, i) && DistinctNumbers(plan.location.extensions)
    requires call.live && call.pc == Pc("outbound", plan.routes[i].pattern, 0) && Consistent(call, uid, pbx)
    ensures var r := plan.routes[i];
            exists end ::
            && Reaches(Conf(plan), oracle, call, end)
            && EndsAs(call, end, Presented(plan.location, r.source, r.custom, call.caller),
                      Attempted(ActiveRouteTrunks(r.trunks), oracle, |call.dialed|), Requests(r))
            && Settled(end, uid, pbx)
  {
    var end := RouteEnds(plan, oracle, call, i);
    forall c | Consistent(c, uid, pbx) ensures Consistent(Tick(Conf(plan), oracle, c), uid, pbx) {
      TickKeeps(plan, oracle, c, uid, pbx);
    }
    ReachKeeps(Conf(plan), oracle, call, end, uid, pbx);
  }

  /** What that call presents, in terms of the records alone. */
  lemma RoutedCallPresents(plan: Plan, oracle: Oracle, call: Call, i: nat)
    requires OnlyOne((r: Route) => r.pattern, plan.routes, i) && DistinctNumbers(plan.location.extensions)
    requires call.live && call.pc == Pc("outbound", plan.routes[i].pattern, 0)
    ensures var r := plan.routes[i];
            exists end :: Reaches(Conf(plan), oracle, call, end) && !end.live
              && MustPresent(plan.location, r.source, r.custom, call.caller, end.caller)
  {
    var r := plan.routes[i];
    var end := RouteEnds(plan, oracle, call, i);
    PresentedIs(plan.location, r.source, r.custom, call.caller);
  }

  /** And what it asks for: a recording exactly on the two policies that record, if there is a trunk to try. */
  lemma RoutedCallAsks(plan: Plan, oracle: Oracle, call: Call, i: nat)
    requires OnlyOne((r: Route) => r.pattern, plan.routes, i) && DistinctNumbers(plan.location.extensions)
    requires call.live && call.pc == Pc("outbound", plan.routes[i].pattern, 0)
    ensures var r := plan.routes[i];
            exists end :: Reaches(Conf(plan), oracle, call, end) && !end.live
              && end.hooked == call.hooked
                 + (if (exists l :: l in r.trunks && l.trunk.active)
                       && (r.policy == "always" || r.policy == "on_demand") then [["route", r.slug, r.policy]] else [])
  {
    var r := plan.routes[i];
    var end := RouteEnds(plan, oracle, call, i);
    TrunksAreActive(r.trunks);
    var links := ActiveRouteTrunks(r.trunks);
    if links != [] { assert links[0] in links; }
  }
}
