/** The renderers of `extensions.conf` as they run: they grow one list of lines in loops and carry the
    flag that decides whether the recording hooks are emitted at the end. Each is proved to append
    exactly its section of `Conf`, and the flag to say exactly whether a line calls the hooks. */
module Renderer {
  import opened Wrappers
  import opened Dialplan
  import opened CallerId
  import opened RingGroups
  import opened ExtensionsConf

  // ----- which sections call the hooks ------------------------------------------------------------------

  lemma CallsJoin(a: seq<Line>, b: seq<Line>)
    ensures CallsHooks(a + b) <==> CallsHooks(a) || CallsHooks(b)
  {
    if l :| l in a && IsHookCall(l) { assert l in a + b; }
    if l :| l in b && IsHookCall(l) { assert l in a + b; }
  }

  /** One more item, after any lines that came before. */
  lemma EachGrows<T>(before: seq<Line>, f: T -> seq<Line>, items: seq<T>, k: nat)
    requires k < |items|
    ensures before + Each(f, items[..k + 1]) == before + Each(f, items[..k]) + f(items[k])
  {
    assert items[..k + 1][..k] == items[..k];
  }

  lemma EachCalls<T>(f: T -> seq<Line>, items: seq<T>, k: nat)
    requires k < |items|
    ensures CallsHooks(Each(f, items[..k + 1])) <==> CallsHooks(Each(f, items[..k])) || CallsHooks(f(items[k]))
  {
    assert items[..k + 1][..k] == items[..k];
    CallsJoin(Each(f, items[..k]), f(items[k]));
  }

  lemma {:induction false} EachSilent<T(!new)>(f: T -> seq<Line>, items: seq<T>)
    requires forall x | x in items :: !CallsHooks(f(x))
    ensures !CallsHooks(Each(f, items))
  {
    if items != [] {
      EachSilent(f, items[..|items| - 1]);
      CallsJoin(Each(f, items[..|items| - 1]), f(items[|items| - 1]));
    }
  }

  lemma BlockCalls(exten: string, app: App, tail: seq<Line>)
    requires !IsHookCall(Exten(exten, app))
    ensures CallsHooks(Block(exten, app, tail)) <==> CallsHooks(tail)
  {
    CallsJoin([Exten(exten, app)] + tail, [Plain("")]);
    CallsJoin([Exten(exten, app)], tail);
  }

  lemma LocalCalls(e: LocalChoice)
    ensures CallsHooks(LocalLines(e)) <==> HookLines("extension", e.number, e.policy) != []
  {
    var hooks := HookLines("extension", e.number, e.policy);
    var rest := [Same(None, Dial(e.target))] + (if e.voicemail then [Same(None, Other("VoiceMail"))] else [])
        + [Same(None, Hangup)];
    BlockCalls(e.number, NoOp, LocalTail(e));
    assert LocalTail(e) == hooks + rest;
    CallsJoin(hooks, rest);
    if hooks != [] { assert hooks[0] in hooks && IsHookCall(hooks[0]); }
  }

  lemma RouteCalls(loc: Location, r: Route)
    ensures CallsHooks(RouteLines(loc, r)) <==>
              ActiveRouteTrunks(r.trunks) != [] && HookLines("route", r.slug, r.policy) != []
  {
    var hooks := HookLines("route", r.slug, r.policy);
    var links := ActiveRouteTrunks(r.trunks);
    var own := RouteCallerIdLines(loc, r.source, r.custom);
    BlockCalls(r.pattern, NoOp, RouteTail(loc, r));
    if links == [] {
      CallsJoin(own, [Same(None, Other("Playback")), Same(None, Hangup)]);
    } else {
      CallsJoin(own, hooks + DialLines(links) + [Same(None, Hangup)]);
      CallsJoin(hooks + DialLines(links), [Same(None, Hangup)]);
      CallsJoin(hooks, DialLines(links));
      if hooks != [] { assert hooks[0] in hooks && IsHookCall(hooks[0]); }
    }
  }

  lemma QueueCalls(q: Queue)
    ensures CallsHooks(QueueLines(q)) <==> HookLines("queue", q.slug, q.policy) != []
  {
    var hooks := HookLines("queue", q.slug, q.policy);
    var rest := [Same(None, Other("Queue"))]
        + (if q.overflow == Missing then [] else [Same(None, DestinationApp(q.overflow))])
                + [Same(None, Hangup)];
    BlockCalls(q.slug, NoOp, QueueTail(q));
    assert QueueTail(q) == hooks + rest;
    CallsJoin(hooks, rest);
    if hooks != [] { assert hooks[0] in hooks && IsHookCall(hooks[0]); }
  }

  lemma {:induction false} HuntSilent(members: seq<Member>)
    ensures !CallsHooks(HuntLines(members))
  {
    if |members| > 1 {
      HuntSilent(members[1..]);
      CallsJoin([Same(None, Dial(Target(members[0]))),
                 Same(None, GotoIf(Variable("DIALSTATUS"), Text("ANSWER"), "done"))],
                HuntLines(members[1..]));
    }
  }

  lemma GroupSilent(g: RingGroup)
    ensures !CallsHooks(RingGroupLines(g))
  {
    HuntSilent(g.members);
    CallsJoin(HuntLines(g.members), [Same(Some("done"), Hangup)]);
    BlockCalls(g.slug, NoOp, GroupTail(g.strategy, g.members));
  }

  lemma BranchSilent(exten: string, d: Destination)
    ensures !CallsHooks(Branch(exten, d))
  {
    BlockCalls(exten, NoOp, [Same(None, DestinationApp(d)), Same(None, Hangup)]);
  }

  lemma IvrSilent(ivr: Ivr)
    ensures !CallsHooks(IvrLines(ivr))
  {
    forall o ensures !CallsHooks(OptionLines(o)) { BranchSilent(o.digit, o.destination); }
    EachSilent(OptionLines, ivr.options);
    var entry := [Exten(ivr.slug, Goto(IvrContext(ivr.slug), "s")), Plain(""), Context(IvrContext(ivr.slug))];
    var main := IvrMain(ivr);
    IvrMainSilent(ivr);
    assert IvrBody(ivr) == main + Each(OptionLines, ivr.options);
    CallsJoin(main, Each(OptionLines, ivr.options));
    CallsJoin(entry, IvrBody(ivr));
  }

  lemma IvrMainSilent(ivr: Ivr)
    ensures !CallsHooks(IvrMain(ivr))
  {
    match ivr.mode
    case Hours(business, after) =>
      var s := Block("s", NoOp, [Same(None, NoOp), Same(None, GotoIfTime("business-hours")),
                                 Same(None, GotoExten("after-hours"))]);
      BranchSilent("business-hours", business);
      BranchSilent("after-hours", after);
      CallsJoin(s, Branch("business-hours", business));
      CallsJoin(s + Branch("business-hours", business), Branch("after-hours", after));
    case Menu(timeout, invalid) =>
      var s := Block("s", NoOp, [Same(None, Other("Background")), Same(None, WaitExten), Same(None, GotoExten("t"))]);
      BranchSilent("t", timeout);
      BranchSilent("i", invalid);
      CallsJoin(s, Branch("t", timeout));
      CallsJoin(s + Branch("t", timeout), Branch("i", invalid));
  }

  lemma FeatureSilent(f: FeatureCode)
    ensures !CallsHooks(FeatureLines(f))
  {
    BlockCalls(f.code, NoOp, [Same(None, FeatureApp(f)), Same(None, Hangup)]);
  }

  /** Everything between the calls: the sections none of whose lines calls the hooks. */
  lemma InboundSilent(plan: Plan)
    ensures !CallsHooks(InboundLines(plan))
  {
    forall e ensures !CallsHooks(RemoteLines(e)) {
      BlockCalls(e.number, NoOp, [Same(None, Dial(e.target)), Same(None, Hangup)]);
    }
    forall d ensures !CallsHooks(DidLines(d)) {
      BlockCalls(d.number, NoOp, [Same(None, DestinationApp(d.destination))]);
    }
    EachSilent(RemoteLines, plan.remotes);
    EachSilent(DidLines, plan.dids);
    DefaultSilent(plan.defaultDestination);
    var remotes := [Context("remote-extensions")] + Each(RemoteLines, plan.remotes);
    CallsJoin([Context("remote-extensions")], Each(RemoteLines, plan.remotes));
    CallsJoin(remotes, [Context("inbound")]);
    CallsJoin(remotes + [Context("inbound")], Each(DidLines, plan.dids));
    CallsJoin(remotes + [Context("inbound")] + Each(DidLines, plan.dids), DefaultLines(plan.defaultDestination));
  }

  lemma DefaultSilent(d: Destination)
    ensures !CallsHooks(DefaultLines(d))
  {
    BlockCalls("s", NoOp, [Same(None, DestinationApp(d))]);
  }

  lemma BlockedSilent(b: EmergencyBlock)
    ensures !CallsHooks(BlockedLines(b))
  {
    var f := pattern => Block(pattern + "/" + b.extension, NoOp, [Same(None, Other("Playback")), Same(None, Hangup)]);
    forall pattern ensures !CallsHooks(f(pattern)) {
      BlockCalls(pattern + "/" + b.extension, NoOp, [Same(None, Other("Playback")), Same(None, Hangup)]);
    }
    EachSilent(f, b.patterns);
  }

  lemma {:induction false} SubroutineSilent(pairs: seq<(string, string)>)
    ensures !CallsHooks(Branches(pairs)) && !CallsHooks(Setters(pairs))
  {
    if pairs != [] {
      SubroutineSilent(pairs[1..]);
      CallsJoin([Same(None, GotoIf(Arg(1), Text(pairs[0].0), LabelFor(pairs[0].0)))], Branches(pairs[1..]));
      CallsJoin([Same(Some(LabelFor(pairs[0].0)), Set("ROUTE_CALLER_ID", Text(pairs[0].1))), Same(None, Return)],
                Setters(pairs[1..]));
    }
  }

  lemma CallerIdSilent(plan: Plan)
    ensures !CallsHooks(CallerIdContext(plan))
  {
    var pairs := Special(plan.location, plan.location.extensions);
    SubroutineSilent(pairs);
    CallsJoin(Branches(pairs), [Same(None, Return)]);
    CallsJoin(Branches(pairs) + [Same(None, Return)], Setters(pairs));
    BlockCalls("s", NoOp, SubroutineTail(pairs));
    CallsJoin([Context(SUBROUTINE)], Block("s", NoOp, SubroutineTail(pairs)));
  }

  lemma ServicesSilent(plan: Plan)
    ensures !CallsHooks(ServiceLines(plan))
  {
    forall code ensures !CallsHooks(PagingLines(code)) {
      BlockCalls(code, NoOp, [Same(None, Other("Page")), Same(None, Hangup)]);
    }
    forall f ensures !CallsHooks(FeatureLines(f)) { FeatureSilent(f); }
    EachSilent(PagingLines, plan.pagingCodes);
    EachSilent(FeatureLines, plan.features);
    var head := [Context("voicemail")] + VoicemailLines() + [Context("paging")];
    forall l | l in head ensures !IsHookCall(l) { }
    CallsJoin(head, Each(PagingLines, plan.pagingCodes));
    CallsJoin(head + Each(PagingLines, plan.pagingCodes), [Context("feature-codes")]);
    CallsJoin(head + Each(PagingLines, plan.pagingCodes) + [Context("feature-codes")],
              Each(FeatureLines, plan.features));
  }

  // ----- the renderers -------------------------------------------------------------------------------------

  /** Some extension or route asks for recordings. */
  predicate CallsAsk(plan: Plan) {
    || CallsHooks(Each(LocalLines, plan.locals))
    || CallsHooks(Each((r: Route) => RouteLines(plan.location, r), plan.routes))
    || CallsHooks(Each((r: Route) => RouteLines(plan.location, r), plan.emergencyRoutes))
  }

  /** The list of lines the renderers grow. */
  class LineBuffer {
    var lines: seq<Line>

    constructor ()
      ensures lines == []
    {
      lines := [];
    }

    /** The loops of the records that never ask for a recording: each one's own lines, in order. */
    method AppendEach<T>(own: T -> seq<Line>, items: seq<T>)
      modifies this
      ensures lines == old(lines) + Each(own, items)
    {
      for k := 0 to |items|
        invariant lines == old(lines) + Each(own, items[..k])
      {
        EachGrows(old(lines), own, items, k);
        lines := lines + own(items[k]);
      }
      assert items[..|items|] == items;
    }

    /** Append one local extension; the answer says whether it asks for a recording. */
    method AppendLocal(e: LocalChoice) returns (asked: bool)
      modifies this
      ensures lines == old(lines) + LocalLines(e) && asked == CallsHooks(LocalLines(e))
    {
      LocalCalls(e);
      ghost var before := lines;
      var hooks := HookLines("extension", e.number, e.policy);
      asked := false;
      lines := lines + [Exten(e.number, NoOp)];
      if hooks != [] {
        asked := true;
        lines := lines + hooks;
      }
      lines := lines + [Same(None, Dial(e.target))];
      if e.voicemail { lines := lines + [Same(None, Other("VoiceMail"))]; }
      lines := lines + [Same(None, Hangup), Plain("")];
      assert lines == before + LocalLines(e);
    }

    method AppendLocals(locals: seq<LocalChoice>) returns (asked: bool)
      modifies this
      ensures lines == old(lines) + Each(LocalLines, locals) && asked == CallsHooks(Each(LocalLines, locals))
    {
      asked := false;
      for k := 0 to |locals|
        invariant lines == old(lines) + Each(LocalLines, locals[..k])
        invariant asked == CallsHooks(Each(LocalLines, locals[..k]))
      {
        EachGrows(old(lines), LocalLines, locals, k);
        EachCalls(LocalLines, locals, k);
        var one := AppendLocal(locals[k]);
        asked := one || asked;
      }
      assert locals[..|locals|] == locals;
    }

    /** `_append_route_lines`: the early return leaves a route without trunks unrecorded. */
    method AppendRoute(loc: Location, r: Route) returns (asked: bool)
      modifies this
      ensures lines == old(lines) + RouteLines(loc, r) && asked == CallsHooks(RouteLines(loc, r))
    {
      RouteCalls(loc, r);
      ghost var before := lines;
      lines := lines + [Exten(r.pattern, NoOp)];
      lines := lines + RouteCallerIdLines(loc, r.source, r.custom);
      var links := ActiveRouteTrunks(r.trunks);
      if links == [] {
        lines := lines + [Same(None, Other("Playback")), Same(None, Hangup), Plain("")];
        RouteWithoutTrunks(before, loc, r);
        return false;
      }
      var hooks := HookLines("route", r.slug, r.policy);
      if hooks != [] { lines := lines + hooks; }
      AppendDials(links);
      lines := lines + [Same(None, Hangup), Plain("")];
      RouteWithTrunks(before, loc, r);
      return hooks != [];
    }

    method AppendDials(links: seq<RouteTrunk>)
      modifies this
      ensures lines == old(lines) + DialLines(links)
    {
      for k := 0 to |links|
        invariant lines == old(lines) + DialLines(links[..k])
      {
        DialsGrow(links, k);
        lines := lines + [Same(None, Dial(links[k].trunk.target))];
      }
      WholePrefix(links);
    }

    method AppendRoutes(loc: Location, routes: seq<Route>) returns (asked: bool)
      modifies this
      ensures var f := (r: Route) => RouteLines(loc, r);
              lines == old(lines) + Each(f, routes) && asked == CallsHooks(Each(f, routes))
    {
      ghost var f := (r: Route) => RouteLines(loc, r);
      asked := false;
      for k := 0 to |routes|
        invariant lines == old(lines) + Each(f, routes[..k])
        invariant asked == CallsHooks(Each(f, routes[..k]))
      {
        EachGrows(old(lines), f, routes, k);
        EachCalls(f, routes, k);
        var one := AppendRoute(loc, routes[k]);
        asked := one || asked;
      }
      assert routes[..|routes|] == routes;
    }

    /** The file up to the caller ID subroutine. */
    method AppendCalls(plan: Plan) returns (asked: bool)
      requires lines == []
      modifies this
      ensures lines == BeforeSubroutine(plan)
      ensures asked == CallsAsk(plan)
    {
      var opening := AppendOpening(plan);
      var outbound := AppendOutbound(plan);
      var emergency := AppendEmergency(plan);
      asked := emergency || outbound || opening;
    }

    method AppendOpening(plan: Plan) returns (asked: bool)
      requires lines == []
      modifies this
      ensures lines == Opening(plan) && asked == CallsHooks(Each(LocalLines, plan.locals))
    {
      lines := INCLUDES;
      asked := AppendLocals(plan.locals);
      AppendInbound(plan);
    }

    method AppendOutbound(plan: Plan) returns (asked: bool)
      modifies this
      ensures lines == old(lines) + OutboundLines(plan)
      ensures asked == CallsHooks(Each((r: Route) => RouteLines(plan.location, r), plan.routes))
    {
      lines := lines + [Context("outbound")];
      asked := AppendRoutes(plan.location, plan.routes);
    }

    method AppendEmergency(plan: Plan) returns (asked: bool)
      modifies this
      ensures lines == old(lines) + EmergencyLines(plan)
      ensures asked == CallsHooks(Each((r: Route) => RouteLines(plan.location, r), plan.emergencyRoutes))
    {
      lines := lines + [Context("emergency")];
      AppendBlocks(plan.blocks);
      asked := AppendRoutes(plan.location, plan.emergencyRoutes);
      EmergencyRegroups(old(lines), Each(BlockedLines, plan.blocks),
                        Each((r: Route) => RouteLines(plan.location, r), plan.emergencyRoutes));
    }

    method AppendInbound(plan: Plan)
      modifies this
      ensures lines == old(lines) + InboundLines(plan)
    {
      lines := lines + [Context("remote-extensions")];
      AppendEach(RemoteLines, plan.remotes);
      lines := lines + [Context("inbound")];
      AppendEach(DidLines, plan.dids);
      AppendDefault(plan.defaultDestination);
      InboundRegroups(old(lines), Each(RemoteLines, plan.remotes), Each(DidLines, plan.dids),
                      DefaultLines(plan.defaultDestination));
    }

    method AppendDefault(d: Destination)
      modifies this
      ensures lines == old(lines) + DefaultLines(d)
    {
      if d != Missing { lines := lines + [Exten("s", NoOp), Same(None, DestinationApp(d)), Plain("")]; }
    }

    /** The patterns each extension may not dial, in a loop within a loop. */
    method AppendBlocks(blocks: seq<EmergencyBlock>)
      modifies this
      ensures lines == old(lines) + Each(BlockedLines, blocks)
    {
      for k := 0 to |blocks|
        invariant lines == old(lines) + Each(BlockedLines, blocks[..k])
      {
        EachGrows(old(lines), BlockedLines, blocks, k);
        AppendBlock(blocks[k]);
      }
      assert blocks[..|blocks|] == blocks;
    }

    method AppendBlock(b: EmergencyBlock)
      modifies this
      ensures lines == old(lines) + BlockedLines(b)
    {
      ghost var f := pattern => Block(pattern + "/" + b.extension, NoOp,
                                      [Same(None, Other("Playback")), Same(None, Hangup)]);
      for k := 0 to |b.patterns|
        invariant lines == old(lines) + Each(f, b.patterns[..k])
      {
        EachGrows(old(lines), f, b.patterns, k);
        lines := lines + [Exten(b.patterns[k] + "/" + b.extension, NoOp), Same(None, Other("Playback")),
                          Same(None, Hangup), Plain("")];
      }
      assert b.patterns[..|b.patterns|] == b.patterns;
    }

    /** `_extension_did_caller_id_context_lines`: a loop for the branches, one for the setters. */
    method AppendSubroutine(loc: Location)
      modifies this
      ensures lines == old(lines) + SubroutineLines(loc)
    {
      ghost var before := lines;
      var pairs := Special(loc, loc.extensions);
      lines := lines + [Context(SUBROUTINE), Exten("s", NoOp)];
      ghost var started := lines;
      for k := 0 to |pairs|
        invariant lines == started + Branches(pairs[..k])
      {
        BranchesGrow(pairs, k);
        lines := lines + [Same(None, GotoIf(Arg(1), Text(pairs[k].0), LabelFor(pairs[k].0)))];
      }
      assert pairs[..|pairs|] == pairs;
      lines := lines + [Same(None, Return)];
      ghost var branched := lines;
      for k := 0 to |pairs|
        invariant lines == branched + Setters(pairs[..k])
      {
        BranchesGrow(pairs, k);
        lines := lines + [Same(Some(LabelFor(pairs[k].0)), Set("ROUTE_CALLER_ID", Text(pairs[k].1))),
                          Same(None, Return)];
      }
      lines := lines + [Plain("")];
      SubroutineParts(before, loc, pairs);
    }

    /** The file from the caller ID subroutine to the hooks. */
    method AppendRest(plan: Plan) returns (asked: bool)
      requires lines == BeforeSubroutine(plan)
      modifies this
      ensures lines == BeforeHooks(plan) && asked == CallsHooks(Each(QueueLines, plan.queues))
    {
      AppendCallerIdContext(plan);
      AppendServices(plan);
      asked := AppendDestinations(plan);
    }

    method AppendCallerIdContext(plan: Plan)
      modifies this
      ensures lines == old(lines) + CallerIdContext(plan)
    {
      var did := AnyExtensionDid(plan.routes + plan.emergencyRoutes);
      if did { AppendSubroutine(plan.location); }
    }

    method AppendServices(plan: Plan)
      modifies this
      ensures lines == old(lines) + ServiceLines(plan)
    {
      lines := lines + [Context("voicemail")] + VoicemailLines() + [Context("paging")];
      AppendEach(PagingLines, plan.pagingCodes);
      lines := lines + [Context("feature-codes")];
      AppendEach(FeatureLines, plan.features);
      ServiceRegroups(old(lines), VoicemailLines(), Each(PagingLines, plan.pagingCodes),
                      Each(FeatureLines, plan.features));
    }

    /** `_append_destination_contexts`: only queues ask for recordings. */
    method AppendDestinations(plan: Plan) returns (asked: bool)
      modifies this
      ensures lines == old(lines) + DestinationLines(plan) && asked == CallsHooks(Each(QueueLines, plan.queues))
    {
      lines := lines + [Context("ivrs")];
      AppendEach(IvrLines, plan.ivrs);
      lines := lines + [Context("ring-groups")];
      AppendRingGroups(plan.ringGroups);
      lines := lines + [Context("queues")];
      asked := AppendQueues(plan.queues);
      DestinationRegroups(old(lines), Each(IvrLines, plan.ivrs), Each(RingGroupLines, plan.ringGroups),
                          Each(QueueLines, plan.queues));
    }

    method AppendRingGroups(groups: seq<RingGroup>)
      modifies this
      ensures lines == old(lines) + Each(RingGroupLines, groups)
    {
      for k := 0 to |groups|
        invariant lines == old(lines) + Each(RingGroupLines, groups[..k])
      {
        EachGrows(old(lines), RingGroupLines, groups, k);
        var more := RenderGroup(groups[k].slug, groups[k].strategy, groups[k].members);
        lines := lines + more;
      }
      assert groups[..|groups|] == groups;
    }

    method AppendQueue(q: Queue) returns (asked: bool)
      modifies this
      ensures lines == old(lines) + QueueLines(q) && asked == CallsHooks(QueueLines(q))
    {
      QueueCalls(q);
      ghost var before := lines;
      var hooks := HookLines("queue", q.slug, q.policy);
      asked := false;
      lines := lines + [Exten(q.slug, NoOp)];
      if hooks != [] {
        asked := true;
        lines := lines + hooks;
      }
      lines := lines + [Same(None, Other("Queue"))];
      if q.overflow != Missing { lines := lines + [Same(None, DestinationApp(q.overflow))]; }
      lines := lines + [Same(None, Hangup), Plain("")];
      assert lines == before + QueueLines(q);
    }

    method AppendQueues(queues: seq<Queue>) returns (asked: bool)
      modifies this
      ensures lines == old(lines) + Each(QueueLines, queues) && asked == CallsHooks(Each(QueueLines, queues))
    {
      asked := false;
      for k := 0 to |queues|
        invariant lines == old(lines) + Each(QueueLines, queues[..k])
        invariant asked == CallsHooks(Each(QueueLines, queues[..k]))
      {
        EachGrows(old(lines), QueueLines, queues, k);
        EachCalls(QueueLines, queues, k);
        var one := AppendQueue(queues[k]);
        asked := one || asked;
      }
      assert queues[..|queues|] == queues;
    }
  }

  lemma DialsGrow(links: seq<RouteTrunk>, k: nat)
    requires k < |links|
    ensures DialLines(links[..k + 1]) == DialLines(links[..k]) + [Same(None, Dial(links[k].trunk.target))]
  {
  }

  lemma RouteWithoutTrunks(before: seq<Line>, loc: Location, r: Route)
    requires ActiveRouteTrunks(r.trunks) == []
    ensures before + [Exten(r.pattern, NoOp)] + RouteCallerIdLines(loc, r.source, r.custom)
              + [Same(None, Other("Playback")), Same(None, Hangup), Plain("")] == before + RouteLines(loc, r)
  {
    Wraps(before, Exten(r.pattern, NoOp), RouteCallerIdLines(loc, r.source, r.custom),
          [Same(None, Other("Playback")), Same(None, Hangup)]);
    assert [Same(None, Other("Playback")), Same(None, Hangup)] + [Plain("")]
           == [Same(None, Other("Playback")), Same(None, Hangup), Plain("")];
  }

  lemma RouteWithTrunks(before: seq<Line>, loc: Location, r: Route)
    requires ActiveRouteTrunks(r.trunks) != []
    ensures var hooks := HookLines("route", r.slug, r.policy);
            var start := before + [Exten(r.pattern, NoOp)] + RouteCallerIdLines(loc, r.source, r.custom);
            (if hooks != [] then start + hooks else start) + DialLines(ActiveRouteTrunks(r.trunks))
                + [Same(None, Hangup), Plain("")]
              == before + RouteLines(loc, r)
  {
    var hooks := HookLines("route", r.slug, r.policy);
    var dials := DialLines(ActiveRouteTrunks(r.trunks));
    var start := before + [Exten(r.pattern, NoOp)] + RouteCallerIdLines(loc, r.source, r.custom);
    Wraps(before, Exten(r.pattern, NoOp), RouteCallerIdLines(loc, r.source, r.custom),
          hooks + dials + [Same(None, Hangup)]);
    assert start + [] == start;
    LastTwo(start, hooks, dials);
  }

  lemma Wraps(before: seq<Line>, first: Line, own: seq<Line>, rest: seq<Line>)
    ensures before + [first] + own + (rest + [Plain("")]) == before + ([first] + (own + rest) + [Plain("")])
  {
  }

  lemma LastTwo(start: seq<Line>, hooks: seq<Line>, dials: seq<Line>)
    ensures start + hooks + dials + [Same(None, Hangup), Plain("")]
            == start + ((hooks + dials + [Same(None, Hangup)]) + [Plain("")])
  {
  }

  lemma InboundRegroups(before: seq<Line>, remotes: seq<Line>, dids: seq<Line>, default: seq<Line>)
    ensures before + [Context("remote-extensions")] + remotes + [Context("inbound")] + dids + default
              == before + ([Context("remote-extensions")] + remotes + [Context("inbound")] + dids + default)
  {
  }

  lemma EmergencyRegroups(before: seq<Line>, blocks: seq<Line>, routes: seq<Line>)
    ensures before + [Context("emergency")] + blocks + routes == before + ([Context("emergency")] + blocks + routes)
  {
  }

  lemma ServiceRegroups(before: seq<Line>, voicemail: seq<Line>, paging: seq<Line>, features: seq<Line>)
    ensures before + [Context("voicemail")] + voicemail + [Context("paging")] + paging + [Context("feature-codes")]
            + features
              == before + ([Context("voicemail")] + voicemail + [Context("paging")] + paging
                           + [Context("feature-codes")] + features)
  {
  }

  lemma DestinationRegroups(before: seq<Line>, ivrs: seq<Line>, groups: seq<Line>, queues: seq<Line>)
    ensures before + [Context("ivrs")] + ivrs + [Context("ring-groups")] + groups + [Context("queues")] + queues
              == before + ([Context("ivrs")] + ivrs + [Context("ring-groups")] + groups + [Context("queues")] + queues)
  {
  }

  lemma {:induction false} BranchesGrow(pairs: seq<(string, string)>, k: nat)
    requires k < |pairs|
    ensures Branches(pairs[..k + 1]) == Branches(pairs[..k])
            + [Same(None, GotoIf(Arg(1), Text(pairs[k].0), LabelFor(pairs[k].0)))]
    ensures Setters(pairs[..k + 1]) == Setters(pairs[..k])
              + [Same(Some(LabelFor(pairs[k].0)), Set("ROUTE_CALLER_ID", Text(pairs[k].1))), Same(None, Return)]
  {
    if k > 0 {
      BranchesGrow(pairs[1..], k - 1);
      assert pairs[..k + 1][1..] == pairs[1..][..k] && pairs[..k][1..] == pairs[1..][..k - 1];
    } else {
      assert pairs[..1] == [pairs[0]] && pairs[..0] == [];
      assert pairs[..1][1..] == [];
    }
  }

  lemma SubroutineParts(before: seq<Line>, loc: Location, pairs: seq<(string, string)>)
    requires pairs == Special(loc, loc.extensions)
    ensures before + [Context(SUBROUTINE), Exten("s", NoOp)] + Branches(pairs) + [Same(None, Return)]
              + Setters(pairs) + [Plain("")]
              == before + SubroutineLines(loc)
  {
    FiveParts(before, Branches(pairs), [Same(None, Return)], Setters(pairs));
  }

  lemma FiveParts(before: seq<Line>, b: seq<Line>, c: seq<Line>, d: seq<Line>)
    ensures before + [Context(SUBROUTINE), Exten("s", NoOp)] + b + c + d + [Plain("")]
              == before + ([Context(SUBROUTINE)] + Block("s", NoOp, b + c + d))
  {
  }

  /** `render_ring_group_dialplan_lines` on a payload that passed its check. */
  method RenderGroup(name: string, strategy: Strategy, members: seq<Member>) returns (lines: seq<Line>)
    ensures lines == GroupLines(name, strategy, members)
  {
    lines := [Exten(name, NoOp)];
    if strategy == RingAll {
      lines := lines + [Same(None, Dial(JoinTargets(members)))];
      lines := lines + [Same(None, Hangup)];
    } else {
      assert members[0..] == members;
      for index := 0 to |members|
        invariant lines + HuntLines(members[index..]) == [Exten(name, NoOp)] + HuntLines(members)
      {
        HuntShrinks(members, index);
        ghost var was := lines;
        lines := lines + [Same(None, Dial(Target(members[index])))];
        if index < |members| - 1 {
          lines := lines + [Same(None, GotoIf(Variable("DIALSTATUS"), Text("ANSWER"), "done"))];
        }
        assert lines + HuntLines(members[index + 1..]) == was + HuntLines(members[index..]);
      }
      assert lines == [Exten(name, NoOp)] + HuntLines(members) by { assert members[|members|..] == []; }
      lines := lines + [Same(Some("done"), Hangup)];
    }
    lines := lines + [Plain("")];
    assert lines == GroupLines(name, strategy, members);
  }

  lemma HuntShrinks(members: seq<Member>, index: nat)
    requires index < |members|
    ensures HuntLines(members[index..])
              == [Same(None, Dial(Target(members[index])))]
                 + (if index < |members| - 1 then [Same(None, GotoIf(Variable("DIALSTATUS"), Text("ANSWER"), "done"))]
                    else [])
                 + HuntLines(members[index + 1..])
  {
    assert members[index..][1..] == members[index + 1..];
  }

  /** `_uses_extension_did_caller_id`. */
  method AnyExtensionDid(routes: seq<Route>) returns (found: bool)
    ensures found == UsesExtensionDid(routes)
  {
    found := false;
    for k := 0 to |routes|
      invariant found == UsesExtensionDid(routes[..k])
    {
      assert routes[..k + 1] == routes[..k] + [routes[k]];
      if found { var r :| r in routes[..k] && r.source == ExtensionDid; assert r in routes[..k + 1]; }
      assert routes[k] in routes[..k + 1];
      found := found || routes[k].source == ExtensionDid;
    }
    assert routes[..|routes|] == routes;
  }

  /** The flag the renderers carried says whether any line before the hooks calls them. */
  lemma FlagIsExact(plan: Plan)
    ensures CallsHooks(BeforeHooks(plan)) <==> CallsAsk(plan) || CallsHooks(Each(QueueLines, plan.queues))
  {
    InboundSilent(plan);
    CallerIdSilent(plan);
    ServicesSilent(plan);
    OpeningCalls(plan);
    RouteSectionsCall(plan);
    DestinationsCall(plan);
    CallsJoin(Opening(plan), OutboundLines(plan));
    CallsJoin(Opening(plan) + OutboundLines(plan), EmergencyLines(plan));
    CallsJoin(BeforeSubroutine(plan), CallerIdContext(plan));
    CallsJoin(BeforeSubroutine(plan) + CallerIdContext(plan), ServiceLines(plan));
    CallsJoin(BeforeSubroutine(plan) + CallerIdContext(plan) + ServiceLines(plan), DestinationLines(plan));
  }

  lemma IncludesSilent()
    ensures !CallsHooks(INCLUDES)
  {
    forall l | l in INCLUDES ensures !IsHookCall(l) { assert l.Plain? || l.Context?; }
  }

  lemma OpeningCalls(plan: Plan)
    requires !CallsHooks(InboundLines(plan))
    ensures CallsHooks(Opening(plan)) <==> CallsHooks(Each(LocalLines, plan.locals))
  {
    IncludesSilent();
    CallsJoin(INCLUDES, Each(LocalLines, plan.locals));
    CallsJoin(INCLUDES + Each(LocalLines, plan.locals), InboundLines(plan));
  }

  lemma RouteSectionsCall(plan: Plan)
    ensures CallsHooks(OutboundLines(plan)) <==>
            CallsHooks(Each((r: Route) => RouteLines(plan.location, r), plan.routes))
    ensures CallsHooks(EmergencyLines(plan)) <==>
            CallsHooks(Each((r: Route) => RouteLines(plan.location, r), plan.emergencyRoutes))
  {
    forall b ensures !CallsHooks(BlockedLines(b)) { BlockedSilent(b); }
    EachSilent(BlockedLines, plan.blocks);
    CallsJoin([Context("outbound")], Each((r: Route) => RouteLines(plan.location, r), plan.routes));
    CallsJoin([Context("emergency")], Each(BlockedLines, plan.blocks));
    CallsJoin([Context("emergency")] + Each(BlockedLines, plan.blocks),
              Each((r: Route) => RouteLines(plan.location, r), plan.emergencyRoutes));
  }

  lemma DestinationsCall(plan: Plan)
    ensures CallsHooks(DestinationLines(plan)) <==> CallsHooks(Each(QueueLines, plan.queues))
  {
    var ivrs := [Context("ivrs")] + Each(IvrLines, plan.ivrs);
    var groups := Each(RingGroupLines, plan.ringGroups);
    forall ivr ensures !CallsHooks(IvrLines(ivr)) { IvrSilent(ivr); }
    EachSilent(IvrLines, plan.ivrs);
    forall g ensures !CallsHooks(RingGroupLines(g)) { GroupSilent(g); }
    EachSilent(RingGroupLines, plan.ringGroups);
    CallsJoin([Context("ivrs")], Each(IvrLines, plan.ivrs));
    CallsJoin(ivrs, [Context("ring-groups")]);
    CallsJoin(ivrs + [Context("ring-groups")], groups);
    CallsJoin(ivrs + [Context("ring-groups")] + groups, [Context("queues")]);
    CallsJoin(ivrs + [Context("ring-groups")] + groups + [Context("queues")], Each(QueueLines, plan.queues));
  }

  /** `_render_extensions_conf`. */
  method RenderExtensionsConf(plan: Plan) returns (lines: seq<Line>)
    ensures lines == Conf(plan)
  {
    var buffer := new LineBuffer();
    var recordingHooksEnabled := buffer.AppendCalls(plan);
    var asked := buffer.AppendRest(plan);
    recordingHooksEnabled := asked || recordingHooksEnabled;
    FlagIsExact(plan);
    if recordingHooksEnabled { buffer.lines := buffer.lines + HookContextLines(); }
    lines := buffer.lines;
  }
}
