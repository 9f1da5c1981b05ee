/** Where the routes, ring groups and IVRs of the generated file can be reached, and where not. */
module ConfTargets {
  import opened Wrappers
  import opened Dialplan
  import opened RingGroups
  import opened ExtensionsConf
  import opened ConfFacts

  // ----- runs of one-extension items -------------------------------------------------------------------

  /** Items that each become one extension, in one context: only the items with a name add to it. */
  lemma {:induction false} EachElsewhere<T(!new)>(f: T -> seq<Line>, name: T -> string, tail: T -> seq<Line>,
                                                  items: seq<T>,
                                                 at: Cursor, exten: string)
    requires forall x :: AllSame(tail(x)) && f(x) == Block(name(x), NoOp, tail(x))
    requires forall x | x in items :: name(x) != exten
    ensures Collect(at, Each(f, items), Cursor(at.context, exten)) == []
    ensures CursorAfter(at, Each(f, items)).context == at.context
  {
    if items != [] {
      var init := items[..|items| - 1];
      var last := items[|items| - 1];
      EachElsewhere(f, name, tail, init, at, exten);
      CollectSplits(at, Each(f, init), f(last), Cursor(at.context, exten));
      BlockCollects(CursorAfter(at, Each(f, init)), name(last), NoOp, tail(last), Cursor(at.context, exten));
    }
  }

  predicate OnlyOne<T(!new)>(name: T -> string, items: seq<T>, i: nat) {
    i < |items| && forall j | 0 <= j < |items| && j != i :: name(items[j]) != name(items[i])
  }

  /** An item whose name no other item has is found under that name, complete. */
  lemma {:induction false} EachFinds<T(!new)>(f: T -> seq<Line>, name: T -> string, tail: T -> seq<Line>, items: seq<T>,
                                             at: Cursor, i: nat)
    requires forall x :: AllSame(tail(x)) && f(x) == Block(name(x), NoOp, tail(x))
    requires OnlyOne(name, items, i)
    ensures Collect(at, Each(f, items), Cursor(at.context, name(items[i]))) == BlockSteps(NoOp, tail(items[i]))
    ensures CursorAfter(at, Each(f, items)).context == at.context
  {
    var init := items[..|items| - 1];
    var last := items[|items| - 1];
    var to := Cursor(at.context, name(items[i]));
    CollectSplits(at, Each(f, init), f(last), to);
    if i == |init| {
      EachElsewhere(f, name, tail, init, at, name(items[i]));
    } else {
      assert init[i] == items[i];
      EachFinds(f, name, tail, init, at, i);
    }
    BlockCollects(CursorAfter(at, Each(f, init)), name(last), NoOp, tail(last), to);
  }

  // ----- routes -----------------------------------------------------------------------------------------

  function AfterOutbound(plan: Plan): seq<Line> {
    EmergencyLines(plan) + CallerIdContext(plan) + Closing(plan)
  }

  lemma AfterOutboundLacks(plan: Plan)
    ensures Lacks(AfterOutbound(plan), "outbound")
    ensures AfterOutbound(plan) != [] && AfterOutbound(plan)[0].Context?
    ensures Conf(plan) == Opening(plan) + OutboundLines(plan) + AfterOutbound(plan)
  {
    EmergencyLacks(plan, "outbound");
    CallerIdLacks(plan, "outbound");
    ClosingLacks(plan, "outbound");
    LacksJoins(EmergencyLines(plan), CallerIdContext(plan), "outbound");
    LacksJoins(EmergencyLines(plan) + CallerIdContext(plan), Closing(plan), "outbound");
    ConfParts(plan);
    Regroups(Opening(plan) + OutboundLines(plan), EmergencyLines(plan), CallerIdContext(plan), Closing(plan));
  }

  /** An outbound route whose pattern no other outbound route has is in the file, complete. */
  lemma RouteInFile(plan: Plan, i: nat)
    requires OnlyOne((r: Route) => r.pattern, plan.routes, i)
    ensures AllSame(RouteTail(plan.location, plan.routes[i]))
    ensures Steps(Conf(plan), "outbound", plan.routes[i].pattern)
              == BlockSteps(NoOp, RouteTail(plan.location, plan.routes[i]))
  {
    var loc := plan.location;
    var f := (r: Route) => RouteLines(loc, r);
    forall r ensures AllSame(RouteTail(loc, r)) { RouteTailPlainly(true, loc, r); }
    OpeningLacks(plan, "outbound");
    AfterOutboundLacks(plan);
    RoutesPlainly(true, loc, plan.routes);
    Regroup3(Opening(plan), [Context("outbound")], Each(f, plan.routes), AfterOutbound(plan));
    SectionSteps(Opening(plan), "outbound", Each(f, plan.routes), AfterOutbound(plan), plan.routes[i].pattern);
    EachFinds(f, (r: Route) => r.pattern, (r: Route) => RouteTail(loc, r), plan.routes, Cursor("outbound", ""), i);
  }

  lemma Regroup3(a: seq<Line>, b: seq<Line>, c: seq<Line>, d: seq<Line>)
    ensures a + (b + c) + d == a + b + c + d
  {
  }

  // ----- IVRs and ring groups -------------------------------------------------------------------------------

  function BeforeDestinations(plan: Plan): seq<Line> {
    BeforeSubroutine(plan) + CallerIdContext(plan) + ServiceLines(plan)
  }

  lemma BeforeDestinationsLack(plan: Plan, name: string)
    requires name in {"ivrs", "ring-groups", "queues"}
    ensures Lacks(BeforeDestinations(plan), name)
  {
    OpeningLacks(plan, name);
    OutboundLacks(plan, name);
    EmergencyLacks(plan, name);
    CallerIdLacks(plan, name);
    ServicesLack(plan, name);
    LacksJoins(Opening(plan), OutboundLines(plan), name);
    LacksJoins(Opening(plan) + OutboundLines(plan), EmergencyLines(plan), name);
    LacksJoins(BeforeSubroutine(plan), CallerIdContext(plan), name);
    LacksJoins(BeforeSubroutine(plan) + CallerIdContext(plan), ServiceLines(plan), name);
  }

  function QueueSection(plan: Plan): seq<Line> {
    [Context("queues")] + Each(QueueLines, plan.queues) + HookSection(plan)
  }

  function AfterIvrs(plan: Plan): seq<Line> {
    [Context("ring-groups")] + Each(RingGroupLines, plan.ringGroups) + QueueSection(plan)
  }

  lemma QueueSectionLacks(plan: Plan, name: string)
    requires name in {"ivrs", "ring-groups"}
    ensures Lacks(QueueSection(plan), name)
  {
    DestinationParts(true, plan);
    PlainlyLacks("queues", Each(QueueLines, plan.queues), name);
    HookSectionLacks(plan, name);
    LacksJoins([Context("queues")] + Each(QueueLines, plan.queues), HookSection(plan), name);
  }

  lemma AfterIvrsLacks(plan: Plan)
    ensures Lacks(AfterIvrs(plan), "ivrs")
  {
    DestinationParts(true, plan);
    PlainlyLacks("ring-groups", Each(RingGroupLines, plan.ringGroups), "ivrs");
    QueueSectionLacks(plan, "ivrs");
    LacksJoins([Context("ring-groups")] + Each(RingGroupLines, plan.ringGroups), QueueSection(plan), "ivrs");
  }

  lemma DestinationsInFile(plan: Plan)
    ensures Conf(plan) == BeforeDestinations(plan) + [Context("ivrs")] + Each(IvrLines, plan.ivrs) + AfterIvrs(plan)
  {
    var ivrs := Each(IvrLines, plan.ivrs);
    var groups := Each(RingGroupLines, plan.ringGroups);
    var queues := Each(QueueLines, plan.queues);
    SixParts(BeforeDestinations(plan), ivrs, groups, queues, HookSection(plan));
  }

  lemma SixParts(a: seq<Line>, ivrs: seq<Line>, groups: seq<Line>, queues: seq<Line>, hooks: seq<Line>)
    ensures a + ([Context("ivrs")] + ivrs + [Context("ring-groups")] + groups + [Context("queues")] + queues) + hooks
              == a + [Context("ivrs")] + ivrs
                + ([Context("ring-groups")] + groups + ([Context("queues")] + queues + hooks))
  {
  }

  lemma {:induction false} EachFirst<T>(f: T -> seq<Line>, items: seq<T>)
    requires items != []
    ensures Each(f, items) == f(items[0]) + Each(f, items[1..])
  {
    if |items| > 1 {
      EachFirst(f, items[..|items| - 1]);
      assert items[..|items| - 1][1..] == items[1..][..|items| - 2];
    } else {
      assert items[..0] == [] && items[1..] == [];
    }
  }

  /** The extensions of `[ivrs]`: only the first IVR has one there. The entries of the later ones land in
      the context the IVR before them opened, where no `Goto(ivrs,...)` finds them. */
  lemma OnlyFirstIvrHasAnEntry(plan: Plan, exten: string)
    ensures Steps(Conf(plan), "ivrs", exten)
              == if plan.ivrs != [] && exten == plan.ivrs[0].slug
                 then [Step(None, Goto(IvrContext(plan.ivrs[0].slug), "s"))] else []
  {
    var before := BeforeDestinations(plan);
    BeforeDestinationsLack(plan, "ivrs");
    AfterIvrsLacks(plan);
    DestinationsInFile(plan);
    if plan.ivrs == [] {
      SectionSteps(before, "ivrs", [], AfterIvrs(plan), exten);
      assert before + [Context("ivrs")] + [] == before + [Context("ivrs")];
    } else {
      var first := plan.ivrs[0];
      EachFirst(IvrLines, plan.ivrs);
      var rest := Each(IvrLines, plan.ivrs[1..]) + AfterIvrs(plan);
      IvrsLack(plan.ivrs[1..], "ivrs");
      LacksJoins(Each(IvrLines, plan.ivrs[1..]), AfterIvrs(plan), "ivrs");
      FirstIvr(before, first, rest, exten);
      Regroup2(before + [Context("ivrs")], IvrLines(first), Each(IvrLines, plan.ivrs[1..]), AfterIvrs(plan));
    }
  }

  lemma Regroup2(a: seq<Line>, b: seq<Line>, c: seq<Line>, d: seq<Line>)
    ensures a + (b + c) + d == a + b + (c + d)
  {
  }

  lemma FirstIvr(before: seq<Line>, ivr: Ivr, rest: seq<Line>, exten: string)
    requires Lacks(before, "ivrs") && Lacks(rest, "ivrs")
    ensures Steps(before + [Context("ivrs")] + IvrLines(ivr) + rest, "ivrs", exten)
              == if exten == ivr.slug then [Step(None, Goto(IvrContext(ivr.slug), "s"))] else []
  {
    OwnLacks(ivr, rest);
    EntrySection(before, ivr.slug, Goto(IvrContext(ivr.slug), "s"), OwnLines(ivr) + rest, exten);
    EntryThenOwn(before, ivr, rest);
  }

  /** The context an IVR opens for itself. */
  function OwnLines(ivr: Ivr): seq<Line> { [Context(IvrContext(ivr.slug))] + IvrBody(ivr) }

  lemma OwnLacks(ivr: Ivr, rest: seq<Line>)
    requires Lacks(rest, "ivrs")
    ensures Lacks(OwnLines(ivr) + rest, "ivrs")
  {
    IvrContextIsNew(ivr.slug);
    IvrBodyPlainly(true, ivr);
    PlainlyLacks(IvrContext(ivr.slug), IvrBody(ivr), "ivrs");
    LacksJoins(OwnLines(ivr), rest, "ivrs");
  }

  lemma EntryThenOwn(before: seq<Line>, ivr: Ivr, rest: seq<Line>)
    ensures before + [Context("ivrs")] + IvrLines(ivr) + rest
              == before + [Context("ivrs")] + [Exten(ivr.slug, Goto(IvrContext(ivr.slug), "s")),
                                               Plain("")] + (OwnLines(ivr) + rest)
  {
    EntryThenBody(before + [Context("ivrs")], Exten(ivr.slug, Goto(IvrContext(ivr.slug), "s")),
                  Context(IvrContext(ivr.slug)),
                  IvrBody(ivr), rest);
  }

  lemma EntryThenBody(before: seq<Line>, entry: Line, opens: Line, body: seq<Line>, rest: seq<Line>)
    ensures before + ([entry, Plain(""), opens] + body) + rest == before + [entry,
                                                                            Plain("")] + (([opens] + body) + rest)
  {
  }

  lemma EntrySection(before: seq<Line>, slug: string, app: App, after: seq<Line>, exten: string)
    requires Lacks(before, "ivrs") && Lacks(after, "ivrs") && after != [] && after[0].Context?
    ensures Steps(before + [Context("ivrs")] + [Exten(slug, app), Plain("")] + after, "ivrs", exten)
              == if exten == slug then [Step(None, app)] else []
  {
    SectionSteps(before, "ivrs", [Exten(slug, app), Plain("")], after, exten);
    assert [Exten(slug, app), Plain("")] == Block(slug, app, []);
    BlockCollects(Cursor("ivrs", ""), slug, app, [], Cursor("ivrs", exten));
  }

  /** A call sent to an IVR enters that IVR's own context if and only if its name is the first IVR's;
      any other IVR's callers are hung up. */
  lemma IvrReachedIffFirst(plan: Plan, oracle: Oracle, call: Call, j: nat)
    requires j < |plan.ivrs| && call.live && call.pc == Pc("ivrs", plan.ivrs[j].slug, 0)
    ensures var next := Tick(Conf(plan), oracle, call);
            if plan.ivrs[j].slug == plan.ivrs[0].slug
            then next == call.(pc := Pc(IvrContext(plan.ivrs[j].slug), "s", 0))
            else next == call.(live := false)
  {
    OnlyFirstIvrHasAnEntry(plan, plan.ivrs[j].slug);
    EntryTick(Conf(plan), oracle, call, plan.ivrs[j].slug == plan.ivrs[0].slug, IvrContext(plan.ivrs[0].slug));
  }

  lemma EntryTick(lines: seq<Line>, oracle: Oracle, call: Call, found: bool, target: string)
    requires call.live && call.pc.priority == 0
    requires Steps(lines, call.pc.context, call.pc.exten) == if found then [Step(None, Goto(target, "s"))] else []
    ensures Tick(lines, oracle, call) == if found then call.(pc := Pc(target, "s", 0)) else call.(live := false)
  {
  }

  /** A ring group whose name no other ring group has is in the file, complete. */
  lemma RingGroupInFile(plan: Plan, i: nat)
    requires OnlyOne((g: RingGroup) => g.slug, plan.ringGroups, i) && plan.ringGroups[i].members != []
    ensures Steps(Conf(plan), "ring-groups", plan.ringGroups[i].slug)
              == GroupSteps(plan.ringGroups[i].strategy, plan.ringGroups[i].members)
  {
    forall g: RingGroup ensures AllSame(GroupTail(g.strategy, g.members)) && Plainly(true, RingGroupLines(g)) {
      RingGroupPlainly(true, g);
    }
    var before := BeforeDestinations(plan) + [Context("ivrs")] + Each(IvrLines, plan.ivrs);
    var groups := Each(RingGroupLines, plan.ringGroups);
    BeforeDestinationsLack(plan, "ring-groups");
    IvrsLack(plan.ivrs, "ring-groups");
    LacksJoins(BeforeDestinations(plan), [Context("ivrs")], "ring-groups");
    LacksJoins(BeforeDestinations(plan) + [Context("ivrs")], Each(IvrLines, plan.ivrs), "ring-groups");
    QueueSectionLacks(plan, "ring-groups");
    EachPlainly(true, RingGroupLines, plan.ringGroups);
    DestinationsInFile(plan);
    Regroups(before, [Context("ring-groups")], groups, QueueSection(plan));
    SectionSteps(before, "ring-groups", groups, QueueSection(plan), plan.ringGroups[i].slug);
    EachFinds(RingGroupLines, (g: RingGroup) => g.slug, (g: RingGroup) => GroupTail(g.strategy, g.members),
              plan.ringGroups, Cursor("ring-groups", ""), i);
  }

  /** A call to a hunt group of the file dials its members in order up to the first that answers. */
  lemma HuntGroupInFile(plan: Plan, oracle: Oracle, call: Call, i: nat)
    requires OnlyOne((g: RingGroup) => g.slug, plan.ringGroups, i) && plan.ringGroups[i].members != []
    requires plan.ringGroups[i].strategy == Hunt
    requires call.live && call.pc == Pc("ring-groups", plan.ringGroups[i].slug, 0)
    ensures exists end :: Reaches(Conf(plan), oracle, call, end)
              && EndsAfterDialing(call, end, Hunted(plan.ringGroups[i].members, oracle, |call.dialed|))
  {
    RingGroupInFile(plan, i);
    HuntGroup(Conf(plan), oracle, call, plan.ringGroups[i].members);
  }

  /** With the members the payload check answers, the file's group tries the payload's entries by priority
      and then extension, up to the first that answers. */
  lemma CheckedGroupInFile(plan: Plan, oracle: Oracle, call: Call, i: nat, entries: seq<Entry>)
    requires OnlyOne((g: RingGroup) => g.slug, plan.ringGroups, i) && plan.ringGroups[i].strategy == Hunt
    requires Verdict(Some(entries), Ok(plan.ringGroups[i].members))
    requires call.live && call.pc == Pc("ring-groups", plan.ringGroups[i].slug, 0)
    ensures exists end, tried :: Reaches(Conf(plan), oracle, call, end)
              && EndsAfterDialing(call, end, tried) && TriesInOrder(entries, oracle, |call.dialed|, tried)
  {
    var members := plan.ringGroups[i].members;
    HuntGroupInFile(plan, oracle, call, i);
    var end :| Reaches(Conf(plan), oracle, call, end)
               && EndsAfterDialing(call, end, Hunted(members, oracle, |call.dialed|));
    CheckedMembersAreTriedInOrder(entries, members, oracle, |call.dialed|);
  }
}
