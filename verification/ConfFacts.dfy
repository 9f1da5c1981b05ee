/** What the generated file contains: which lines may appear in it, where each context stands, and
    what the priorities of its extensions are. */
module ConfFacts {
  import opened Wrappers
  import opened Dialplan
  import opened CallerId
  import opened RingGroups
  import opened ExtensionsConf

  // ----- every line outside the hooks' own context is harmless to the recording variables ---------------

  /** The arguments of a recording request: what kind of source asks, which one, and a policy that records. */
  predicate AsksFor(args: seq<Expr>) {
    |args| == 3 && args[0].Text? && args[1].Text? && args[2].Text?
    && IsRequest([args[0].text, args[1].text, args[2].text])
  }

  predicate IsRequest(args: seq<string>) {
    |args| == 3 && args[0] in {"extension", "route", "queue"} && Recorded(args[2])
  }

  /** An application that neither records, nor touches the recording variables, nor enters the hooks'
      context except by a proper call; and that calls the caller ID subroutine only where `did` says so. */
  predicate Harmless(did: bool, app: App) {
    match app
    case MixMonitor(_) => false
    case Set(name, _) => name == "ROUTE_CALLER_ID"
    case Goto(context, _) => context != RECORDING_HOOKS
    case GotoRest(context, _) => context != RECORDING_HOOKS
    case Gosub(context, exten, args) => exten == "s"
        && ((context == SUBROUTINE && did) || (context == RECORDING_HOOKS && AsksFor(args)))
    case _ => true
  }

  predicate Benign(did: bool, l: Line) {
    match l
    case Context(name) => name != RECORDING_HOOKS
    case Exten(_, app) => Harmless(did, app)
    case Same(_, app) => Harmless(did, app)
    case Plain(_) => true
  }

  predicate AllBenign(did: bool, lines: seq<Line>) {
    forall l | l in lines :: Benign(did, l)
  }

  predicate NoContext(lines: seq<Line>) {
    forall l | l in lines :: !l.Context?
  }

  /** A run of extensions: it opens no context, and all its lines are benign. */
  predicate Plainly(did: bool, lines: seq<Line>) {
    AllBenign(did, lines) && NoContext(lines)
  }

  lemma {:induction false} EachPlainly<T(!new)>(did: bool, f: T -> seq<Line>, items: seq<T>)
    requires forall x | x in items :: Plainly(did, f(x))
    ensures Plainly(did, Each(f, items))
  {
    if items != [] { EachPlainly(did, f, items[..|items| - 1]); }
  }

  lemma {:induction false} EachBenign<T(!new)>(did: bool, f: T -> seq<Line>, items: seq<T>)
    requires forall x | x in items :: AllBenign(did, f(x))
    ensures AllBenign(did, Each(f, items))
  {
    if items != [] { EachBenign(did, f, items[..|items| - 1]); }
  }

  lemma BlockPlainly(did: bool, exten: string, app: App, tail: seq<Line>)
    requires AllSame(tail) && Harmless(did, app) && AllBenign(did, tail)
    ensures Plainly(did, Block(exten, app, tail))
  {
  }

  lemma HooksPlainly(did: bool, sourceType: string, sourceId: string, policy: string)
    requires sourceType in {"extension", "route", "queue"}
    ensures AllSame(HookLines(sourceType, sourceId, policy)) && AllBenign(did, HookLines(sourceType, sourceId, policy))
  {
  }

  lemma LocalPlainly(did: bool, e: LocalChoice)
    ensures Plainly(did, LocalLines(e))
  {
    HooksPlainly(did, "extension", e.number, e.policy);
    BlockPlainly(did, e.number, NoOp, LocalTail(e));
  }

  lemma {:induction false} BranchesPlainly(did: bool, pairs: seq<(string, string)>)
    ensures AllBenign(did, Branches(pairs)) && AllBenign(did, Setters(pairs))
  {
    if pairs != [] { BranchesPlainly(did, pairs[1..]); }
  }

  lemma RouteTailPlainly(did: bool, loc: Location, r: Route)
    requires r.source == ExtensionDid ==> did
    ensures AllSame(RouteTail(loc, r)) && AllBenign(did, RouteTail(loc, r))
  {
    HooksPlainly(did, "route", r.slug, r.policy);
    var links := ActiveRouteTrunks(r.trunks);
    forall l | l in DialLines(links) ensures l.Same? && Benign(did, l) { }
    forall l | l in RouteCallerIdLines(loc, r.source, r.custom) ensures l.Same? && Benign(did, l) { }
  }

  lemma RoutePlainly(did: bool, loc: Location, r: Route)
    requires r.source == ExtensionDid ==> did
    ensures Plainly(did, RouteLines(loc, r))
  {
    RouteTailPlainly(did, loc, r);
    BlockPlainly(did, r.pattern, NoOp, RouteTail(loc, r));
  }

  lemma QueueTailPlainly(did: bool, q: Queue)
    ensures AllSame(QueueTail(q)) && AllBenign(did, QueueTail(q))
  {
    HooksPlainly(did, "queue", q.slug, q.policy);
  }

  lemma QueuePlainly(did: bool, q: Queue)
    ensures Plainly(did, QueueLines(q))
  {
    QueueTailPlainly(did, q);
    BlockPlainly(did, q.slug, NoOp, QueueTail(q));
  }

  lemma {:induction false} HuntPlainly(did: bool, members: seq<Member>)
    ensures AllSame(HuntLines(members)) && AllBenign(did, HuntLines(members))
  {
    if |members| > 1 { HuntPlainly(did, members[1..]); }
  }

  lemma RingGroupPlainly(did: bool, g: RingGroup)
    ensures Plainly(did, RingGroupLines(g)) && AllSame(GroupTail(g.strategy, g.members))
  {
    HuntPlainly(did, g.members);
    BlockPlainly(did, g.slug, NoOp, GroupTail(g.strategy, g.members));
  }

  lemma BranchPlainly(did: bool, exten: string, d: Destination)
    ensures Plainly(did, Branch(exten, d))
  {
    BlockPlainly(did, exten, NoOp, [Same(None, DestinationApp(d)), Same(None, Hangup)]);
  }

  lemma IvrBodyPlainly(did: bool, ivr: Ivr)
    ensures Plainly(did, IvrBody(ivr))
  {
    forall o ensures Plainly(did, OptionLines(o)) { BranchPlainly(did, o.digit, o.destination); }
    EachPlainly(did, OptionLines, ivr.options);
    match ivr.mode
    case Hours(business, after) =>
      BranchPlainly(did, "business-hours", business);
      BranchPlainly(did, "after-hours", after);
      BlockPlainly(did, "s", NoOp, [Same(None, NoOp), Same(None, GotoIfTime("business-hours")),
                                    Same(None, GotoExten("after-hours"))]);
    case Menu(timeout, invalid) =>
      BranchPlainly(did, "t", timeout);
      BranchPlainly(did, "i", invalid);
      BlockPlainly(did, "s", NoOp, [Same(None, Other("Background")), Same(None, WaitExten),
                                    Same(None, GotoExten("t"))]);
  }

  /** No IVR's context has the name of a fixed one. */
  lemma IvrContextIsNew(slug: string)
    ensures IvrContext(slug) != RECORDING_HOOKS && IvrContext(slug) != SUBROUTINE
    ensures IvrContext(slug) !in {"outbound", "ivrs", "ring-groups", "queues"}
  {
    assert IvrContext(slug)[0] == 'i' && IvrContext(slug)[3] == '-';
  }

  lemma IvrBenign(did: bool, ivr: Ivr)
    ensures AllBenign(did, IvrLines(ivr))
  {
    IvrBodyPlainly(did, ivr);
    IvrContextIsNew(ivr.slug);
  }

  lemma BlockedPlainly(did: bool, b: EmergencyBlock)
    ensures Plainly(did, BlockedLines(b))
  {
    EachPlainly(did, pattern => Block(pattern + "/" + b.extension, NoOp,
                                      [Same(None, Other("Playback")), Same(None, Hangup)]),
                b.patterns);
  }

  lemma FeaturePlainly(did: bool, f: FeatureCode)
    ensures Plainly(did, FeatureLines(f))
  {
    BlockPlainly(did, f.code, NoOp, [Same(None, FeatureApp(f)), Same(None, Hangup)]);
  }

  // ----- the parts of the file -----------------------------------------------------------------------------

  lemma RoutesPlainly(did: bool, loc: Location, routes: seq<Route>)
    requires UsesExtensionDid(routes) ==> did
    ensures Plainly(did, Each((r: Route) => RouteLines(loc, r), routes))
  {
    forall r | r in routes ensures Plainly(did, RouteLines(loc, r)) { RoutePlainly(did, loc, r); }
    EachPlainly(did, (r: Route) => RouteLines(loc, r), routes);
  }

  lemma InboundParts(did: bool, plan: Plan)
    ensures Plainly(did, Each(LocalLines, plan.locals)) && Plainly(did, Each(RemoteLines, plan.remotes))
    ensures Plainly(did, Each(DidLines, plan.dids)) && Plainly(did, DefaultLines(plan.defaultDestination))
  {
    LocalsPlainly(did, plan.locals);
    RemotesPlainly(did, plan.remotes);
    DidsPlainly(did, plan.dids);
  }

  lemma LocalsPlainly(did: bool, locals: seq<LocalChoice>)
    ensures Plainly(did, Each(LocalLines, locals))
  {
    forall e ensures Plainly(did, LocalLines(e)) { LocalPlainly(did, e); }
    EachPlainly(did, LocalLines, locals);
  }

  lemma RemotesPlainly(did: bool, remotes: seq<RemoteChoice>)
    ensures Plainly(did, Each(RemoteLines, remotes))
  {
    EachPlainly(did, RemoteLines, remotes);
  }

  lemma DidsPlainly(did: bool, dids: seq<InboundDid>)
    ensures Plainly(did, Each(DidLines, dids))
  {
    EachPlainly(did, DidLines, dids);
  }

  lemma ServiceParts(did: bool, plan: Plan)
    ensures Plainly(did, VoicemailLines()) && Plainly(did, Each(PagingLines, plan.pagingCodes))
    ensures Plainly(did, Each(FeatureLines, plan.features))
  {
    EachPlainly(did, PagingLines, plan.pagingCodes);
    FeaturesPlainly(did, plan.features);
  }

  lemma FeaturesPlainly(did: bool, features: seq<FeatureCode>)
    ensures Plainly(did, Each(FeatureLines, features))
  {
    forall f ensures Plainly(did, FeatureLines(f)) { FeaturePlainly(did, f); }
    EachPlainly(did, FeatureLines, features);
  }

  lemma DestinationParts(did: bool, plan: Plan)
    ensures AllBenign(did, Each(IvrLines, plan.ivrs))
    ensures Plainly(did, Each(RingGroupLines, plan.ringGroups)) && Plainly(did, Each(QueueLines, plan.queues))
  {
    forall ivr ensures AllBenign(did, IvrLines(ivr)) { IvrBenign(did, ivr); }
    EachBenign(did, IvrLines, plan.ivrs);
    forall g ensures Plainly(did, RingGroupLines(g)) { RingGroupPlainly(did, g); }
    EachPlainly(did, RingGroupLines, plan.ringGroups);
    forall q ensures Plainly(did, QueueLines(q)) { QueuePlainly(did, q); }
    EachPlainly(did, QueueLines, plan.queues);
  }

  lemma EmergencyParts(did: bool, plan: Plan)
    ensures Plainly(did, Each(BlockedLines, plan.blocks))
  {
    forall b ensures Plainly(did, BlockedLines(b)) { BlockedPlainly(did, b); }
    EachPlainly(did, BlockedLines, plan.blocks);
  }

  lemma SubroutineTailPlainly(did: bool, loc: Location)
    ensures var tail := SubroutineTail(Special(loc, loc.extensions)); AllSame(tail) && AllBenign(did, tail)
  {
    GeneratedAreSame(Special(loc, loc.extensions));
    BranchesPlainly(did, Special(loc, loc.extensions));
  }

  lemma BenignJoins(did: bool, a: seq<Line>, b: seq<Line>)
    requires AllBenign(did, a) && AllBenign(did, b)
    ensures AllBenign(did, a + b)
  {
  }

  lemma IncludesBenign(did: bool)
    ensures AllBenign(did, INCLUDES)
  {
    forall l | l in INCLUDES ensures Benign(did, l) { assert l.Plain? || l.Context?; }
  }

  lemma InboundBenign(did: bool, plan: Plan)
    ensures AllBenign(did, INCLUDES + Each(LocalLines, plan.locals)) && AllBenign(did, InboundLines(plan))
  {
    IncludesBenign(did);
    InboundParts(did, plan);
    BenignJoins(did, INCLUDES, Each(LocalLines, plan.locals));
    var remotes := [Context("remote-extensions")] + Each(RemoteLines, plan.remotes);
    var dids := [Context("inbound")] + Each(DidLines, plan.dids);
    BenignJoins(did, remotes, dids);
    BenignJoins(did, remotes + dids, DefaultLines(plan.defaultDestination));
    assert InboundLines(plan) == remotes + dids + DefaultLines(plan.defaultDestination);
  }

  lemma CallsBenign(did: bool, plan: Plan)
    requires UsesExtensionDid(plan.routes + plan.emergencyRoutes) ==> did
    ensures AllBenign(did, OutboundLines(plan)) && AllBenign(did, EmergencyLines(plan))
            && AllBenign(did, CallerIdContext(plan))
  {
    RoutesPlainly(did, plan.location, plan.routes);
    RoutesPlainly(did, plan.location, plan.emergencyRoutes);
    EmergencyParts(did, plan);
    SubroutineTailPlainly(did, plan.location);
    BlockPlainly(did, "s", NoOp, SubroutineTail(Special(plan.location, plan.location.extensions)));
  }

  lemma ServicesBenign(did: bool, plan: Plan)
    ensures AllBenign(did, ServiceLines(plan)) && AllBenign(did, DestinationLines(plan))
  {
    ServiceParts(did, plan);
    DestinationParts(did, plan);
  }

  /** Of all lines before the hooks' own context, none is harmful. */
  lemma BeforeHooksBenign(plan: Plan)
    ensures AllBenign(UsesExtensionDid(plan.routes + plan.emergencyRoutes), BeforeHooks(plan))
  {
    var did := UsesExtensionDid(plan.routes + plan.emergencyRoutes);
    InboundBenign(did, plan);
    CallsBenign(did, plan);
    ServicesBenign(did, plan);
    forall l | l in BeforeHooks(plan) ensures Benign(did, l) { }
  }

  // ----- where a context stands ----------------------------------------------------------------------------

  /** When a context is opened once, its extensions are those of the lines up to the next context. */
  lemma SectionSteps(before: seq<Line>, context: string, body: seq<Line>, after: seq<Line>, exten: string)
    requires context != "" && Context(context) !in before && NoContext(body) && Context(context) !in after
    requires after != [] ==> after[0].Context?
    ensures Steps(before + [Context(context)] + body + after, context, exten)
              == Collect(Cursor(context, ""), body, Cursor(context, exten))
  {
    var to := Cursor(context, exten);
    ElsewhereAddsNothing(TOP, before, to);
    SectionRegroups(before, Context(context), body, after);
    CollectSplits(TOP, before, [Context(context)] + (body + after), to);
    OpensAndCloses(CursorAfter(TOP, before), context, body, after, to);
  }

  lemma SectionRegroups(before: seq<Line>, opens: Line, body: seq<Line>, after: seq<Line>)
    ensures before + [opens] + body + after == before + ([opens] + (body + after))
  {
  }

  lemma OpensAndCloses(at: Cursor, context: string, body: seq<Line>, after: seq<Line>, to: Cursor)
    requires to.context == context && Context(context) !in after && (after != [] ==> after[0].Context?)
    ensures Collect(at, [Context(context)] + (body + after), to) == Collect(Cursor(context, ""), body, to)
  {
    var open := Cursor(context, "");
    assert ([Context(context)] + (body + after))[1..] == body + after;
    CollectSplits(open, body, after, to);
    if after != [] { ElsewhereAddsNothing(Advance(CursorAfter(open, body), after[0]), after[1..], to); }
  }

  lemma {:induction false} IvrContexts(ivrs: seq<Ivr>)
    ensures forall l | l in Each(IvrLines, ivrs) && l.Context? :: exists slug :: l.name == IvrContext(slug)
  {
    if ivrs != [] {
      IvrContexts(ivrs[..|ivrs| - 1]);
      var last := ivrs[|ivrs| - 1];
      IvrBodyPlainly(true, last);
      forall l | l in IvrLines(last) && l.Context? ensures exists slug :: l.name == IvrContext(slug) {
        assert l.name == IvrContext(last.slug);
      }
    }
  }

  /** The file from the `[voicemail]` context on. */
  function Closing(plan: Plan): seq<Line> {
    ServiceLines(plan) + DestinationLines(plan) + HookSection(plan)
  }

  /** The context of this name is not opened by these lines. */
  predicate Lacks(lines: seq<Line>, name: string) {
    Context(name) !in lines
  }

  lemma LacksJoins(a: seq<Line>, b: seq<Line>, name: string)
    requires Lacks(a, name) && Lacks(b, name)
    ensures Lacks(a + b, name)
  {
  }

  lemma PlainlyLacks(opener: string, lines: seq<Line>, name: string)
    requires NoContext(lines)
    ensures Lacks(lines, name)
    ensures opener != name ==> Lacks([Context(opener)] + lines, name)
  {
  }

  predicate FixedName(name: string) {
    name in {SUBROUTINE, "outbound", "ivrs", "ring-groups", "queues"}
  }

  lemma OpeningLacks(plan: Plan, name: string)
    requires FixedName(name)
    ensures Lacks(Opening(plan), name)
  {
    InboundParts(true, plan);
    var locals := Each(LocalLines, plan.locals);
    var remotes := Each(RemoteLines, plan.remotes);
    var dids := Each(DidLines, plan.dids);
    var default := DefaultLines(plan.defaultDestination);
    IncludesLack(name);
    PlainlyLacks("", locals, name);
    LacksJoins(INCLUDES, locals, name);
    PlainlyLacks("remote-extensions", remotes, name);
    PlainlyLacks("inbound", dids, name);
    LacksJoins([Context("remote-extensions")] + remotes, [Context("inbound")] + dids, name);
    PlainlyLacks("", default, name);
    LacksJoins(([Context("remote-extensions")] + remotes) + ([Context("inbound")] + dids), default, name);
    assert InboundLines(plan) == ([Context("remote-extensions")] + remotes) + ([Context("inbound")] + dids) + default;
    LacksJoins(INCLUDES + locals, InboundLines(plan), name);
  }

  lemma IncludesLack(name: string)
    requires FixedName(name)
    ensures Lacks(INCLUDES, name)
  {
  }

  lemma OutboundLacks(plan: Plan, name: string)
    requires name != "outbound"
    ensures Lacks(OutboundLines(plan), name)
  {
    RoutesPlainly(true, plan.location, plan.routes);
    PlainlyLacks("outbound", Each((r: Route) => RouteLines(plan.location, r), plan.routes), name);
  }

  lemma EmergencyLacks(plan: Plan, name: string)
    requires FixedName(name)
    ensures Lacks(EmergencyLines(plan), name)
  {
    var blocks := Each(BlockedLines, plan.blocks);
    var routes := Each((r: Route) => RouteLines(plan.location, r), plan.emergencyRoutes);
    RoutesPlainly(true, plan.location, plan.emergencyRoutes);
    EmergencyParts(true, plan);
    PlainlyLacks("emergency", blocks, name);
    PlainlyLacks("", routes, name);
    LacksJoins([Context("emergency")] + blocks, routes, name);
  }

  lemma CallerIdLacks(plan: Plan, name: string)
    requires name != SUBROUTINE
    ensures Lacks(CallerIdContext(plan), name)
  {
    var tail := SubroutineTail(Special(plan.location, plan.location.extensions));
    SubroutineTailPlainly(true, plan.location);
    BlockPlainly(true, "s", NoOp, tail);
    PlainlyLacks(SUBROUTINE, Block("s", NoOp, tail), name);
  }

  lemma HookSectionLacks(plan: Plan, name: string)
    requires name != RECORDING_HOOKS
    ensures Lacks(HookSection(plan), name)
  {
    HookTailIsSame();
    forall l | l in Block("s", NoOp, HOOK_TAIL) ensures !l.Context? { BlockHasNoContext("s", NoOp, HOOK_TAIL); }
  }

  lemma BlockHasNoContext(exten: string, app: App, tail: seq<Line>)
    requires AllSame(tail)
    ensures NoContext(Block(exten, app, tail))
  {
  }

  lemma HookTailIsSame()
    ensures AllSame(HOOK_TAIL)
  {
  }

  lemma ServicesLack(plan: Plan, name: string)
    requires FixedName(name)
    ensures Lacks(ServiceLines(plan), name)
  {
    ServiceParts(true, plan);
    var paging := Each(PagingLines, plan.pagingCodes);
    var features := Each(FeatureLines, plan.features);
    PlainlyLacks("voicemail", VoicemailLines(), name);
    PlainlyLacks("paging", paging, name);
    PlainlyLacks("feature-codes", features, name);
    LacksJoins([Context("voicemail")] + VoicemailLines(), [Context("paging")] + paging, name);
    LacksJoins(([Context("voicemail")] + VoicemailLines()) + ([Context("paging")] + paging),
               [Context("feature-codes")] + features, name);
    assert ServiceLines(plan) == ([Context("voicemail")] + VoicemailLines()) + ([Context("paging")] + paging)
                                 + ([Context("feature-codes")] + features);
  }

  lemma IvrsLack(ivrs: seq<Ivr>, name: string)
    requires FixedName(name)
    ensures Lacks(Each(IvrLines, ivrs), name)
  {
    IvrContexts(ivrs);
    if Context(name) in Each(IvrLines, ivrs) {
      var slug :| name == IvrContext(slug);
      IvrContextIsNew(slug);
    }
  }

  lemma DestinationsLack(plan: Plan, name: string)
    requires name in {SUBROUTINE, "outbound"}
    ensures Lacks(DestinationLines(plan), name)
  {
    var ivrs := Each(IvrLines, plan.ivrs);
    var groups := Each(RingGroupLines, plan.ringGroups);
    var queues := Each(QueueLines, plan.queues);
    DestinationParts(true, plan);
    IvrsLack(plan.ivrs, name);
    LacksJoins([Context("ivrs")], ivrs, name);
    PlainlyLacks("ring-groups", groups, name);
    PlainlyLacks("queues", queues, name);
    LacksJoins([Context("ivrs")] + ivrs, [Context("ring-groups")] + groups, name);
    LacksJoins(([Context("ivrs")] + ivrs) + ([Context("ring-groups")] + groups), [Context("queues")] + queues, name);
    assert DestinationLines(plan) == ([Context("ivrs")] + ivrs) + ([Context("ring-groups")] + groups)
        + ([Context("queues")] + queues);
  }

  lemma ClosingLacks(plan: Plan, name: string)
    requires name in {SUBROUTINE, "outbound"}
    ensures Lacks(Closing(plan), name)
  {
    ServicesLack(plan, name);
    DestinationsLack(plan, name);
    HookSectionLacks(plan, name);
    LacksJoins(ServiceLines(plan), DestinationLines(plan), name);
    LacksJoins(ServiceLines(plan) + DestinationLines(plan), HookSection(plan), name);
  }

  // ----- what the extensions of the file are -----------------------------------------------------------------

  /** The hooks' context holds its one extension if some line calls it, and is absent otherwise. */
  lemma HooksLoad(plan: Plan, exten: string)
    ensures AllSame(HOOK_TAIL)
    ensures Steps(Conf(plan), RECORDING_HOOKS, exten)
              == if CallsHooks(BeforeHooks(plan)) && exten == "s" then BlockSteps(NoOp, HOOK_TAIL) else []
  {
    var before := BeforeHooks(plan);
    HookTailIsSame();
    BeforeHooksLack(plan);
    if CallsHooks(before) {
      HookSectionSteps(before, exten);
    } else {
      assert Conf(plan) == before;
      ElsewhereAddsNothing(TOP, before, Cursor(RECORDING_HOOKS, exten));
    }
  }

  lemma BeforeHooksLack(plan: Plan)
    ensures Lacks(BeforeHooks(plan), RECORDING_HOOKS)
  {
    BeforeHooksBenign(plan);
  }

  lemma HookSectionSteps(before: seq<Line>, exten: string)
    requires Lacks(before, RECORDING_HOOKS) && AllSame(HOOK_TAIL)
    ensures Steps(before + HookContextLines(), RECORDING_HOOKS, exten)
              == if exten == "s" then BlockSteps(NoOp, HOOK_TAIL) else []
  {
    var body := Block("s", NoOp, HOOK_TAIL);
    BlockHasNoContext("s", NoOp, HOOK_TAIL);
    assert before + HookContextLines() == before + [Context(RECORDING_HOOKS)] + body + [];
    SectionSteps(before, RECORDING_HOOKS, body, [], exten);
    BlockCollects(Cursor(RECORDING_HOOKS, ""), "s", NoOp, HOOK_TAIL, Cursor(RECORDING_HOOKS, exten));
  }

  /** Everywhere else the priorities are harmless. */
  lemma OthersHarmless(plan: Plan, context: string, exten: string, i: nat)
    requires context != RECORDING_HOOKS && i < |Steps(Conf(plan), context, exten)|
    ensures Harmless(true, Steps(Conf(plan), context, exten)[i].app)
  {
    var to := Cursor(context, exten);
    BeforeHooksBenign(plan);
    CollectSplits(TOP, BeforeHooks(plan), HookSection(plan), to);
    HookSectionAddsNothing(plan, CursorAfter(TOP, BeforeHooks(plan)), to);
    BenignStep(UsesExtensionDid(plan.routes + plan.emergencyRoutes), BeforeHooks(plan), to, i);
  }

  lemma BenignStep(did: bool, lines: seq<Line>, to: Cursor, i: nat)
    requires AllBenign(did, lines) && i < |Collect(TOP, lines, to)|
    ensures Harmless(true, Collect(TOP, lines, to)[i].app)
  {
    StepsStandOnLines(TOP, lines, to, i);
  }

  lemma HookSectionAddsNothing(plan: Plan, at: Cursor, to: Cursor)
    requires to.context != RECORDING_HOOKS
    ensures Collect(at, HookSection(plan), to) == []
  {
    HookSectionLacks(plan, to.context);
    var section := HookSection(plan);
    if section != [] {
      assert section[0] == Context(RECORDING_HOOKS);
      ElsewhereAddsNothing(Cursor(RECORDING_HOOKS, ""), section[1..], to);
    }
  }

  lemma Regroups(a: seq<Line>, b: seq<Line>, c: seq<Line>, d: seq<Line>)
    ensures a + b + c + d == a + (b + c + d)
  {
  }

  lemma ConfParts(plan: Plan)
    ensures Conf(plan) == BeforeSubroutine(plan) + CallerIdContext(plan) + Closing(plan)
    ensures Closing(plan) != [] && Closing(plan)[0].Context?
  {
    Regroups(BeforeSubroutine(plan) + CallerIdContext(plan), ServiceLines(plan), DestinationLines(plan),
             HookSection(plan));
  }

  lemma BeforeSubroutineLacks(plan: Plan)
    ensures Lacks(BeforeSubroutine(plan), SUBROUTINE)
  {
    OpeningLacks(plan, SUBROUTINE);
    OutboundLacks(plan, SUBROUTINE);
    EmergencyLacks(plan, SUBROUTINE);
    LacksJoins(Opening(plan), OutboundLines(plan), SUBROUTINE);
    LacksJoins(Opening(plan) + OutboundLines(plan), EmergencyLines(plan), SUBROUTINE);
  }

  /** The caller ID subroutine is in the file whenever some active route needs it, and absent otherwise. */
  lemma SubroutineInFile(plan: Plan)
    ensures Steps(Conf(plan), SUBROUTINE, "s")
              == if UsesExtensionDid(plan.routes + plan.emergencyRoutes)
                 then SubroutineSteps(Special(plan.location, plan.location.extensions)) else []
  {
    ConfParts(plan);
    BeforeSubroutineLacks(plan);
    ClosingLacks(plan, SUBROUTINE);
    if UsesExtensionDid(plan.routes + plan.emergencyRoutes) {
      SubroutineSection(plan.location, BeforeSubroutine(plan), Closing(plan));
    } else {
      SubroutineAbsent(BeforeSubroutine(plan), Closing(plan));
    }
  }

  lemma SubroutineAbsent(before: seq<Line>, after: seq<Line>)
    requires Lacks(before, SUBROUTINE) && Lacks(after, SUBROUTINE)
    ensures Steps(before + [] + after, SUBROUTINE, "s") == []
  {
    LacksJoins(before, after, SUBROUTINE);
    assert before + [] + after == before + after;
    ElsewhereAddsNothing(TOP, before + after, Cursor(SUBROUTINE, "s"));
  }

  lemma SubroutineSection(loc: Location, before: seq<Line>, after: seq<Line>)
    requires Lacks(before, SUBROUTINE) && Lacks(after, SUBROUTINE) && after != [] && after[0].Context?
    ensures Steps(before + SubroutineLines(loc) + after, SUBROUTINE, "s")
            == SubroutineSteps(Special(loc, loc.extensions))
  {
    var tail := SubroutineTail(Special(loc, loc.extensions));
    var body := Block("s", NoOp, tail);
    SubroutineTailPlainly(true, loc);
    BlockHasNoContext("s", NoOp, tail);
    assert before + SubroutineLines(loc) + after == before + [Context(SUBROUTINE)] + body + after;
    SectionSteps(before, SUBROUTINE, body, after, "s");
    BlockCollects(Cursor(SUBROUTINE, ""), "s", NoOp, tail, Cursor(SUBROUTINE, "s"));
  }
}
