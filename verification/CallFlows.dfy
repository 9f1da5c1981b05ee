/** What a call does in each of the file's other contexts: whom it rings, where it is sent on, what recording it
    asks for. */
module CallFlows {
  import opened Wrappers
  import opened Dialplan
  import opened CallerId
  import opened RingGroups
  import opened ExtensionsConf
  import opened ConfFacts
  import opened ConfTargets
  import opened FileSections
  import opened Recording
  import opened OutboundCalls

  // ----- how a call ends -----------------------------------------------------------------------------------

  /** Hung up where it was called from, having rung `targets` and asked for `requests`. */
  predicate EndsHaving(call: Call, end: Call, targets: seq<string>, requests: seq<seq<string>>) {
    && !end.live && end.stack == call.stack && end.caller == call.caller
    && end.dialed == call.dialed + targets && end.hooked == call.hooked + requests
  }

  /** Alive at the first priority of where the destination says, having asked for `requests`. */
  predicate SentTo(call: Call, next: Call, d: Destination, requests: seq<seq<string>>) {
    && next.live && next.stack == call.stack && next.caller == call.caller && next.dialed == call.dialed
    && next.hooked == call.hooked + requests
    && match d
       case Missing => false
       case ToExtension(number) => next.pc == Pc("local-extensions", number, 0)
       case ToIvr(slug) => next.pc == Pc("ivrs", slug, 0)
       case ToRingGroup(slug) => next.pc == Pc("ring-groups", slug, 0)
       case ToQueue(slug) => next.pc == Pc("queues", slug, 0)
  }

  /** A request for a recording, on the two policies that record. */
  function Asks(kind: string, id: string, policy: string): seq<seq<string>> {
    if policy == "always" || policy == "on_demand" then [[kind, id, policy]] else []
  }

  /** `next` is `call` further on in the same extension, having asked for `requests`. */
  predicate Asked(call: Call, next: Call, requests: seq<seq<string>>) {
    next == call.(pc := next.pc, vars := next.vars, monitored := next.monitored, hooked := call.hooked + requests)
  }

  // ----- pieces of an extension ------------------------------------------------------------------------------

  /** From a priority behind which only plain applications and a hangup are left. */
  lemma {:induction false} RunsOut(lines: seq<Line>, oracle: Oracle, call: Call, steps: seq<Step>, p: nat)
    returns (end: Call)
    requires p < |steps| && Stands(lines, call, steps, p) && steps[|steps| - 1].app == Hangup
    requires forall k | p <= k < |steps| - 1 :: steps[k].app.Other?
    ensures Reaches(lines, oracle, call, end) && EndsHaving(call, end, [], [])
    decreases |steps| - p
  {
    if p == |steps| - 1 {
      HangsUp(lines, oracle, call, steps, p);
      end := call.(live := false);
    } else {
      end := RunsOut(lines, oracle, Tick(lines, oracle, call), steps, p + 1);
      Ticks(lines, oracle, call, end);
    }
  }

  /** A dial, and whatever plain applications and the hangup are behind it. */
  lemma RingsOut(lines: seq<Line>, oracle: Oracle, call: Call, steps: seq<Step>, p: nat, target: string)
    returns (end: Call)
    requires p + 1 < |steps| && Stands(lines, call, steps, p) && steps[p].app == Dial(target)
    requires steps[|steps| - 1].app == Hangup && forall k | p < k < |steps| - 1 :: steps[k].app.Other?
    ensures Reaches(lines, oracle, call, end) && EndsHaving(call, end, [target], [])
  {
    var next := Tick(lines, oracle, call);
    if next.live {
      end := RunsOut(lines, oracle, next, steps, p + 1);
    } else {
      end := next;
      Ticks(lines, oracle, end, end);
    }
    Ticks(lines, oracle, call, end);
  }

  /** The NoOp and the hook lines of an extension: what is asked for, and that the call goes on behind them. */
  lemma AsksFirst(plan: Plan, oracle: Oracle, call: Call, tail: seq<Line>, kind: string, id: string, policy: string)
    returns (next: Call)
    requires AllSame(tail) && HookLines(kind, id, policy) <= tail
    requires Stands(Conf(plan), call, BlockSteps(NoOp, tail), 0)
    requires forall l | l in tail :: l in BeforeHooks(plan)
    ensures Reaches(Conf(plan), oracle, call, next) && Asked(call, next, Asks(kind, id, policy))
    ensures Stands(Conf(plan), next, BlockSteps(NoOp, tail), 1 + |HookLines(kind, id, policy)|)
  {
    if Recorded(policy) {
      assert tail[0] == HookLines(kind, id, policy)[0];
      HooksAreThere(plan, tail[0]);
    }
    next := AsksThen(Conf(plan), oracle, call, tail, kind, id, policy);
  }

  lemma AsksThen(lines: seq<Line>, oracle: Oracle, call: Call, tail: seq<Line>, kind: string, id: string,
                 policy: string)
    returns (next: Call)
    requires AllSame(tail) && HookLines(kind, id, policy) <= tail
    requires Stands(lines, call, BlockSteps(NoOp, tail), 0)
    requires Recorded(policy) ==> Steps(lines, RECORDING_HOOKS, "s") == HookSteps()
    ensures Reaches(lines, oracle, call, next) && Asked(call, next, Asks(kind, id, policy))
    ensures Stands(lines, next, BlockSteps(NoOp, tail), 1 + |HookLines(kind, id, policy)|)
  {
    var entered := Tick(lines, oracle, call);
    if Recorded(policy) {
      assert tail[0] == HookLines(kind, id, policy)[0];
      next := AskHooks(lines, oracle, entered, BlockSteps(NoOp, tail), 1, kind, id, policy);
    } else {
      next := entered;
      assert call.hooked + [] == call.hooked;
      Ticks(lines, oracle, next, next);
    }
    Ticks(lines, oracle, call, next);
  }

  lemma HooksAreThere(plan: Plan, l: Line)
    requires l in BeforeHooks(plan) && IsHookCall(l)
    ensures Steps(Conf(plan), RECORDING_HOOKS, "s") == HookSteps()
  {
    HooksLoad(plan, "s");
  }

  lemma AskedThenEnds(call: Call, next: Call, end: Call, targets: seq<string>, requests: seq<seq<string>>)
    requires Asked(call, next, requests) && EndsHaving(next, end, targets, [])
    ensures EndsHaving(call, end, targets, requests)
  {
    assert call.hooked + requests + [] == call.hooked + requests;
  }

  // ----- extensions --------------------------------------------------------------------------------------------

  lemma LocalLinesAreInFile(plan: Plan, i: nat)
    requires i < |plan.locals|
    ensures forall l | l in LocalTail(plan.locals[i]) :: l in BeforeHooks(plan)
  {
    forall l | l in LocalTail(plan.locals[i]) ensures l in BeforeHooks(plan) {
      assert l in LocalLines(plan.locals[i]);
      InEach(LocalLines, plan.locals, i, l);
      assert l in Opening(plan);
      assert l in BeforeSubroutine(plan);
    }
  }

  lemma LocalTailIs(e: LocalChoice)
    ensures AllSame(LocalTail(e)) && HookLines("extension", e.number, e.policy) <= LocalTail(e)
    ensures var steps := BlockSteps(NoOp, LocalTail(e)); var p := 1 + |HookLines("extension", e.number, e.policy)|;
            && p + 1 < |steps| && steps[p].app == Dial(e.target) && steps[|steps| - 1].app == Hangup
            && forall k | p < k < |steps| - 1 :: steps[k].app.Other?
  {
  }

  /** A call to a local extension asks for the recording its policy wants, rings its phone, and is hung up. */
  lemma LocalCall(plan: Plan, oracle: Oracle, call: Call, i: nat) returns (end: Call)
    requires OnlyOne((e: LocalChoice) => e.number, plan.locals, i)
    requires call.live && call.pc == Pc("local-extensions", plan.locals[i].number, 0)
    ensures var e := plan.locals[i];
            && Reaches(Conf(plan), oracle, call, end)
            && EndsHaving(call, end, [e.target], Asks("extension", e.number, e.policy))
  {
    var e := plan.locals[i];
    forall x: LocalChoice ensures AllSame(LocalTail(x)) { LocalTailIs(x); }
    LocalTailIs(e);
    LocalInFile(plan, e.number);
    EachFinds(LocalLines, (x: LocalChoice) => x.number, LocalTail, plan.locals, Cursor("local-extensions", ""), i);
    LocalLinesAreInFile(plan, i);
    var next := AsksFirst(plan, oracle, call, LocalTail(e), "extension", e.number, e.policy);
    end := RingsOut(Conf(plan), oracle, next, BlockSteps(NoOp, LocalTail(e)),
                    1 + |HookLines("extension", e.number, e.policy)|, e.target);
    AskedThenEnds(call, next, end, [e.target], Asks("extension", e.number, e.policy));
    Joins(Conf(plan), oracle, call, next, end);
  }

  function RemoteTail(e: RemoteChoice): seq<Line> { [Same(None, Dial(e.target)), Same(None, Hangup)] }

  /** A call to an extension of another site rings it there, without a recording of its own. */
  lemma RemoteCall(plan: Plan, oracle: Oracle, call: Call, i: nat) returns (end: Call)
    requires OnlyOne((e: RemoteChoice) => e.number, plan.remotes, i)
    requires call.live && call.pc == Pc("remote-extensions", plan.remotes[i].number, 0)
    ensures Reaches(Conf(plan), oracle, call, end) && EndsHaving(call, end, [plan.remotes[i].target], [])
  {
    var e := plan.remotes[i];
    RemoteInFile(plan, e.number);
    EachFinds(RemoteLines, (x: RemoteChoice) => x.number, RemoteTail, plan.remotes, Cursor("remote-extensions", ""), i);
    var entered := Tick(Conf(plan), oracle, call);
    end := RingsOut(Conf(plan), oracle, entered, BlockSteps(NoOp, RemoteTail(e)), 1, e.target);
    Ticks(Conf(plan), oracle, call, end);
  }

  // ----- numbers from outside -------------------------------------------------------------------------------------

  function DidTail(d: InboundDid): seq<Line> { [Same(None, DestinationApp(d.destination))] }

  /** The priority of a destination, in an extension that is not the last thing the call runs. */
  lemma SendsOn(lines: seq<Line>, oracle: Oracle, call: Call, steps: seq<Step>, p: nat, d: Destination)
    requires p < |steps| && Stands(lines, call, steps, p) && steps[p].app == DestinationApp(d) && d != Missing
    ensures Reaches(lines, oracle, call, Tick(lines, oracle, call)) && SentTo(call, Tick(lines, oracle, call), d, [])
  {
    Ticks(lines, oracle, Tick(lines, oracle, call), Tick(lines, oracle, call));
    Ticks(lines, oracle, call, Tick(lines, oracle, call));
  }

  /** A lone destination behind a NoOp: the call is sent there, or, if there is none, told so and hung up. */
  lemma DestinationAlone(lines: seq<Line>, oracle: Oracle, call: Call, d: Destination) returns (next: Call)
    requires Stands(lines, call, BlockSteps(NoOp, [Same(None, DestinationApp(d))]), 0)
    ensures Reaches(lines, oracle, call, next)
    ensures if d == Missing then EndsHaving(call, next, [], []) else SentTo(call, next, d, [])
  {
    var steps := BlockSteps(NoOp, [Same(None, DestinationApp(d))]);
    var entered := Tick(lines, oracle, call);
    if d == Missing {
      var told := Tick(lines, oracle, entered);
      next := Tick(lines, oracle, told);
      Ticks(lines, oracle, next, next);
      Ticks(lines, oracle, told, next);
      Ticks(lines, oracle, entered, next);
    } else {
      SendsOn(lines, oracle, entered, steps, 1, d);
      next := Tick(lines, oracle, entered);
    }
    Ticks(lines, oracle, call, next);
  }

  lemma DidInFile(plan: Plan, i: nat)
    requires OnlyOne((d: InboundDid) => d.number, plan.dids, i) && plan.dids[i].number != "s"
    ensures Steps(Conf(plan), "inbound", plan.dids[i].number) == BlockSteps(NoOp, DidTail(plan.dids[i]))
  {
    var d, at := plan.dids[i], Cursor("inbound", "");
    var to := Cursor("inbound", d.number);
    InboundInFile(plan, d.number);
    EachFinds(DidLines, (x: InboundDid) => x.number, DidTail, plan.dids, at, i);
    CollectSplits(at, Each(DidLines, plan.dids), DefaultLines(plan.defaultDestination), to);
    if plan.defaultDestination != Missing {
      BlockCollects(CursorAfter(at, Each(DidLines, plan.dids)), "s", NoOp,
                    [Same(None, DestinationApp(plan.defaultDestination))], to);
    }
  }

  /** A call to an inbound number is sent to the number's destination. */
  lemma DidCall(plan: Plan, oracle: Oracle, call: Call, i: nat) returns (next: Call)
    requires OnlyOne((d: InboundDid) => d.number, plan.dids, i) && plan.dids[i].number != "s"
    requires call.live && call.pc == Pc("inbound", plan.dids[i].number, 0)
    ensures Reaches(Conf(plan), oracle, call, next)
    ensures var d := plan.dids[i].destination;
            if d == Missing then EndsHaving(call, next, [], []) else SentTo(call, next, d, [])
  {
    DidInFile(plan, i);
    next := DestinationAlone(Conf(plan), oracle, call, plan.dids[i].destination);
  }

  /** A call from outside to no number of its own goes to the default destination, if there is one. */
  lemma DefaultCall(plan: Plan, oracle: Oracle, call: Call) returns (next: Call)
    requires forall d | d in plan.dids :: d.number != "s"
    requires call.live && call.pc == Pc("inbound", "s", 0)
    ensures Reaches(Conf(plan), oracle, call, next)
    ensures if plan.defaultDestination == Missing then EndsHaving(call, next, [], [])
            else SentTo(call, next, plan.defaultDestination, [])
  {
    DefaultInFile(plan);
    if plan.defaultDestination != Missing {
      next := DestinationAlone(Conf(plan), oracle, call, plan.defaultDestination);
    } else {
      next := NoSuchExtension(Conf(plan), oracle, call);
    }
  }

  lemma NoSuchExtension(lines: seq<Line>, oracle: Oracle, call: Call) returns (end: Call)
    requires call.live && Steps(lines, call.pc.context, call.pc.exten) == []
    ensures Reaches(lines, oracle, call, end) && EndsHaving(call, end, [], [])
  {
    end := Tick(lines, oracle, call);
    Ticks(lines, oracle, end, end);
    Ticks(lines, oracle, call, end);
  }

  lemma DefaultInFile(plan: Plan)
    requires forall d | d in plan.dids :: d.number != "s"
    ensures var d := plan.defaultDestination;
            Steps(Conf(plan), "inbound", "s")
              == if d == Missing then [] else BlockSteps(NoOp, [Same(None, DestinationApp(d))])
  {
    var at, to := Cursor("inbound", ""), Cursor("inbound", "s");
    InboundInFile(plan, "s");
    EachElsewhere(DidLines, (x: InboundDid) => x.number, DidTail, plan.dids, at, "s");
    CollectSplits(at, Each(DidLines, plan.dids), DefaultLines(plan.defaultDestination), to);
    if plan.defaultDestination != Missing {
      BlockCollects(CursorAfter(at, Each(DidLines, plan.dids)), "s", NoOp,
                    [Same(None, DestinationApp(plan.defaultDestination))], to);
    }
  }

  /** So a call to a number that belongs to an extension rings that extension's phone. */
  lemma InboundRings(plan: Plan, oracle: Oracle, call: Call, i: nat, j: nat) returns (end: Call)
    requires OnlyOne((d: InboundDid) => d.number, plan.dids, i) && plan.dids[i].number != "s"
    requires OnlyOne((e: LocalChoice) => e.number, plan.locals, j)
    requires plan.dids[i].destination == ToExtension(plan.locals[j].number)
    requires call.live && call.pc == Pc("inbound", plan.dids[i].number, 0)
    ensures var e := plan.locals[j];
            && Reaches(Conf(plan), oracle, call, end)
            && EndsHaving(call, end, [e.target], Asks("extension", e.number, e.policy))
  {
    var sent := DidCall(plan, oracle, call, i);
    end := LocalCall(plan, oracle, sent, j);
    Joins(Conf(plan), oracle, call, sent, end);
  }

  // ----- queues ----------------------------------------------------------------------------------------------------

  lemma QueueInFile(plan: Plan, i: nat)
    requires OnlyOne((q: Queue) => q.slug, plan.queues, i)
    ensures AllSame(QueueTail(plan.queues[i]))
    ensures Steps(Conf(plan), "queues", plan.queues[i].slug) == BlockSteps(NoOp, QueueTail(plan.queues[i]))
  {
    var before := BeforeDestinations(plan) + [Context("ivrs")] + Each(IvrLines, plan.ivrs)
                  + ([Context("ring-groups")] + Each(RingGroupLines, plan.ringGroups));
    var queues := Each(QueueLines, plan.queues);
    forall q: Queue ensures AllSame(QueueTail(q)) { QueueTailPlainly(true, q); }
    QueuesLackBefore(plan);
    DestinationParts(true, plan);
    HookSectionLacks(plan, "queues");
    DestinationsInFile(plan);
    QueueRegroups(BeforeDestinations(plan) + [Context("ivrs")] + Each(IvrLines, plan.ivrs),
                  [Context("ring-groups")] + Each(RingGroupLines, plan.ringGroups), queues, HookSection(plan));
    SectionSteps(before, "queues", queues, HookSection(plan), plan.queues[i].slug);
    EachFinds(QueueLines, (q: Queue) => q.slug, QueueTail, plan.queues, Cursor("queues", ""), i);
  }

  lemma QueueRegroups(a: seq<Line>, b: seq<Line>, queues: seq<Line>, hooks: seq<Line>)
    ensures a + (b + ([Context("queues")] + queues + hooks)) == a + b + [Context("queues")] + queues + hooks
  {
  }

  lemma QueuesLackBefore(plan: Plan)
    ensures Lacks(BeforeDestinations(plan) + [Context("ivrs")] + Each(IvrLines, plan.ivrs)
                  + ([Context("ring-groups")] + Each(RingGroupLines, plan.ringGroups)), "queues")
  {
    BeforeDestinationsLack(plan, "queues");
    DestinationParts(true, plan);
    IvrsLack(plan.ivrs, "queues");
    LacksJoins(BeforeDestinations(plan), [Context("ivrs")], "queues");
    LacksJoins(BeforeDestinations(plan) + [Context("ivrs")], Each(IvrLines, plan.ivrs), "queues");
    PlainlyLacks("ring-groups", Each(RingGroupLines, plan.ringGroups), "queues");
    LacksJoins(BeforeDestinations(plan) + [Context("ivrs")] + Each(IvrLines, plan.ivrs),
               [Context("ring-groups")] + Each(RingGroupLines, plan.ringGroups), "queues");
  }

  lemma QueueTailIs(q: Queue)
    ensures AllSame(QueueTail(q)) && HookLines("queue", q.slug, q.policy) <= QueueTail(q)
    ensures var steps := BlockSteps(NoOp, QueueTail(q)); var p := 1 + |HookLines("queue", q.slug, q.policy)|;
            && |steps| == p + (if q.overflow == Missing then 2 else 3) && steps[p].app == Other("Queue")
            && steps[|steps| - 1].app == Hangup
              && (q.overflow != Missing ==> steps[p + 1].app == DestinationApp(q.overflow))
  {
  }

  lemma QueueLinesAreInFile(plan: Plan, i: nat)
    requires i < |plan.queues|
    ensures forall l | l in QueueTail(plan.queues[i]) :: l in BeforeHooks(plan)
  {
    forall l | l in QueueTail(plan.queues[i]) ensures l in BeforeHooks(plan) {
      assert l in QueueLines(plan.queues[i]);
      InEach(QueueLines, plan.queues, i, l);
      assert l in DestinationLines(plan);
    }
  }

  /** A call to a queue asks for the recording its policy wants, waits in the queue, and if it comes back is sent
      where the queue overflows to, or hung up. */
  lemma QueueCall(plan: Plan, oracle: Oracle, call: Call, i: nat) returns (next: Call)
    requires OnlyOne((q: Queue) => q.slug, plan.queues, i)
    requires call.live && call.pc == Pc("queues", plan.queues[i].slug, 0)
    ensures Reaches(Conf(plan), oracle, call, next)
    ensures var q := plan.queues[i];
            if q.overflow == Missing then EndsHaving(call, next, [], Asks("queue", q.slug, q.policy))
            else SentTo(call, next, q.overflow, Asks("queue", q.slug, q.policy))
  {
    var q := plan.queues[i];
    QueueTailIs(q);
    QueueInFile(plan, i);
    QueueLinesAreInFile(plan, i);
    var asked := AsksFirst(plan, oracle, call, QueueTail(q), "queue", q.slug, q.policy);
    next := QueueRuns(Conf(plan), oracle, asked, q);
    if q.overflow == Missing { AskedThenEnds(call, asked, next, [], Asks("queue", q.slug, q.policy)); }
    else { AskedThenSent(call, asked, next, q.overflow, Asks("queue", q.slug, q.policy)); }
    Joins(Conf(plan), oracle, call, asked, next);
  }

  lemma AskedThenSent(call: Call, asked: Call, next: Call, d: Destination, requests: seq<seq<string>>)
    requires Asked(call, asked, requests) && SentTo(asked, next, d, [])
    ensures SentTo(call, next, d, requests)
  {
    assert call.hooked + requests + [] == call.hooked + requests;
  }

  /** From the queue application on. */
  lemma QueueRuns(lines: seq<Line>, oracle: Oracle, asked: Call, q: Queue) returns (next: Call)
    requires AllSame(QueueTail(q))
    requires Stands(lines, asked, BlockSteps(NoOp, QueueTail(q)), 1 + |HookLines("queue", q.slug, q.policy)|)
    ensures Reaches(lines, oracle, asked, next)
    ensures if q.overflow == Missing then EndsHaving(asked, next, [], []) else SentTo(asked, next, q.overflow, [])
  {
    var steps := BlockSteps(NoOp, QueueTail(q));
    QueueTailIs(q);
    var p := 1 + |HookLines("queue", q.slug, q.policy)|;
    if q.overflow == Missing {
      next := RunsOut(lines, oracle, asked, steps, p);
    } else {
      var waited := Tick(lines, oracle, asked);
      SendsOn(lines, oracle, waited, steps, p + 1, q.overflow);
      next := Tick(lines, oracle, waited);
      Ticks(lines, oracle, asked, next);
    }
  }
}
