/** What a call does under the emergency patterns, the paging and feature codes, and inside an IVR. */
module ServiceFlows {
  import opened Wrappers
  import opened Dialplan
  import opened CallerId
  import opened RingGroups
  import opened ExtensionsConf
  import opened ConfFacts
  import opened ConfTargets
  import opened FileSections
  import opened Recording
  import opened OutboundCalls
  import opened CallFlows

  // ----- emergency calls -------------------------------------------------------------------------------------

  function BlockedName(pattern: string, extension: string): string { pattern + "/" + extension }

  function BlockedTail(): seq<Line> { [Same(None, Other("Playback")), Same(None, Hangup)] }

  /** The block's lines stand under `exten`. */
  predicate Blocks(b: EmergencyBlock, exten: string) {
    exists p :: p in b.patterns && BlockedName(p, b.extension) == exten
  }

  lemma BlockElsewhere(b: EmergencyBlock, at: Cursor, exten: string)
    requires !Blocks(b, exten)
    ensures Collect(at, BlockedLines(b), Cursor(at.context, exten)) == []
    ensures CursorAfter(at, BlockedLines(b)).context == at.context
  {
    var name := (p: string) => BlockedName(p, b.extension);
    var f := (p: string) => Block(BlockedName(p, b.extension), NoOp, BlockedTail());
    BlockIsEach(b);
    forall p | p in b.patterns ensures name(p) != exten { }
    EachElsewhere(f, name, (p: string) => BlockedTail(), b.patterns, at, exten);
  }

  lemma BlockIsEach(b: EmergencyBlock)
    ensures BlockedLines(b)
              == Each((p: string) => Block(BlockedName(p, b.extension), NoOp, BlockedTail()), b.patterns)
  {
    EachSame(pattern => Block(pattern + "/" + b.extension, NoOp, [Same(None, Other("Playback")), Same(None, Hangup)]),
             (p: string) => Block(BlockedName(p, b.extension), NoOp, BlockedTail()), b.patterns);
  }

  lemma {:induction false} EachSame<T(!new)>(f: T -> seq<Line>, g: T -> seq<Line>, items: seq<T>)
    requires forall x :: f(x) == g(x)
    ensures Each(f, items) == Each(g, items)
  {
    if items != [] { EachSame(f, g, items[..|items| - 1]); }
  }

  lemma {:induction false} BlocksElsewhere(blocks: seq<EmergencyBlock>, at: Cursor, exten: string)
    requires forall b | b in blocks :: !Blocks(b, exten)
    ensures Collect(at, Each(BlockedLines, blocks), Cursor(at.context, exten)) == []
    ensures CursorAfter(at, Each(BlockedLines, blocks)).context == at.context
  {
    if blocks != [] {
      var init, last := blocks[..|blocks| - 1], blocks[|blocks| - 1];
      BlocksElsewhere(init, at, exten);
      CollectSplits(at, Each(BlockedLines, init), BlockedLines(last), Cursor(at.context, exten));
      BlockElsewhere(last, CursorAfter(at, Each(BlockedLines, init)), exten);
    }
  }

  /** No other line of the emergency blocks stands where the k-th pattern of the i-th does. */
  predicate OnlyBlock(blocks: seq<EmergencyBlock>, i: nat, k: nat) {
    && i < |blocks| && OnlyOne((p: string) => BlockedName(p, blocks[i].extension), blocks[i].patterns, k)
    && forall j | 0 <= j < |blocks| && j != i ::
      !Blocks(blocks[j], BlockedName(blocks[i].patterns[k], blocks[i].extension))
  }

  lemma {:induction false} BlockFound(blocks: seq<EmergencyBlock>, at: Cursor, i: nat, k: nat)
    requires OnlyBlock(blocks, i, k)
    ensures var exten := BlockedName(blocks[i].patterns[k], blocks[i].extension);
            Collect(at, Each(BlockedLines, blocks), Cursor(at.context, exten)) == BlockSteps(NoOp, BlockedTail())
    ensures CursorAfter(at, Each(BlockedLines, blocks)).context == at.context
  {
    var init, last := blocks[..|blocks| - 1], blocks[|blocks| - 1];
    var exten := BlockedName(blocks[i].patterns[k], blocks[i].extension);
    CollectSplits(at, Each(BlockedLines, init), BlockedLines(last), Cursor(at.context, exten));
    if i == |init| {
      forall b | b in init ensures !Blocks(b, exten) { }
      BlocksElsewhere(init, at, exten);
      BlockIsEach(last);
      EachFinds((p: string) => Block(BlockedName(p, last.extension), NoOp, BlockedTail()),
                (p: string) => BlockedName(p, last.extension), (p: string) => BlockedTail(), last.patterns,
                CursorAfter(at, Each(BlockedLines, init)), k);
    } else {
      assert init[i] == blocks[i];
      forall j | 0 <= j < |init| && j != i ensures !Blocks(init[j], exten) { assert init[j] == blocks[j]; }
      BlockFound(init, at, i, k);
      BlockElsewhere(last, CursorAfter(at, Each(BlockedLines, init)), exten);
    }
  }

  /** An extension that is blocked from an emergency pattern is told so and hung up: nothing is dialed. */
  lemma BlockedCall(plan: Plan, oracle: Oracle, call: Call, i: nat, k: nat) returns (end: Call)
    requires OnlyBlock(plan.blocks, i, k)
    requires var exten := BlockedName(plan.blocks[i].patterns[k], plan.blocks[i].extension);
             && (forall r | r in plan.emergencyRoutes :: r.pattern != exten)
             && call.live && call.pc == Pc("emergency", exten, 0)
    ensures Reaches(Conf(plan), oracle, call, end) && EndsHaving(call, end, [], [])
  {
    BlockedInFile(plan, i, k);
    end := TellsAndHangsUp(Conf(plan), oracle, call, "Playback");
  }

  lemma TellsAndHangsUp(lines: seq<Line>, oracle: Oracle, call: Call, app: string) returns (end: Call)
    requires Stands(lines, call, [Step(None, NoOp), Step(None, Other(app)), Step(None, Hangup)], 0)
    ensures Reaches(lines, oracle, call, end) && EndsHaving(call, end, [], [])
  {
    var steps := [Step(None, NoOp), Step(None, Other(app)), Step(None, Hangup)];
    var entered := Tick(lines, oracle, call);
    end := RunsOut(lines, oracle, entered, steps, 1);
    Ticks(lines, oracle, call, end);
  }

  lemma BlockedInFile(plan: Plan, i: nat, k: nat)
    requires OnlyBlock(plan.blocks, i, k)
    requires var exten := BlockedName(plan.blocks[i].patterns[k], plan.blocks[i].extension);
             forall r | r in plan.emergencyRoutes :: r.pattern != exten
    ensures var exten := BlockedName(plan.blocks[i].patterns[k], plan.blocks[i].extension);
            Steps(Conf(plan), "emergency", exten) == BlockSteps(NoOp, BlockedTail())
  {
    var exten := BlockedName(plan.blocks[i].patterns[k], plan.blocks[i].extension);
    var at, to := Cursor("emergency", ""), Cursor("emergency", exten);
    var f := (r: Route) => RouteLines(plan.location, r);
    EmergencyInFile(plan, exten);
    CollectSplits(at, Each(BlockedLines, plan.blocks), Each(f, plan.emergencyRoutes), to);
    BlockFound(plan.blocks, at, i, k);
    forall r ensures AllSame(RouteTail(plan.location, r)) { RouteTailPlainly(true, plan.location, r); }
    EachElsewhere(f, (r: Route) => r.pattern, (r: Route) => RouteTail(plan.location, r), plan.emergencyRoutes,
                  CursorAfter(at, Each(BlockedLines, plan.blocks)), exten);
  }

  lemma EmergencyHooks(plan: Plan, i: nat)
    requires i < |plan.emergencyRoutes| && Requests(plan.emergencyRoutes[i]) != []
    ensures Steps(Conf(plan), RECORDING_HOOKS, "s") == HookSteps()
  {
    var r := plan.emergencyRoutes[i];
    var l := Same(None, HookRequest(r));
    assert l in HookLines("route", r.slug, r.policy);
    assert l in RouteTail(plan.location, r);
    assert l in RouteLines(plan.location, r);
    InEach((r: Route) => RouteLines(plan.location, r), plan.emergencyRoutes, i, l);
    assert l in EmergencyLines(plan);
    assert l in BeforeSubroutine(plan);
    HooksAreThere(plan, l);
  }

  /** A call to an emergency route goes as one to an outbound route does: it presents the route's caller ID,
      tries the active trunks in order up to the first that takes it, and asks for the recording its policy wants. */
  lemma EmergencyCall(plan: Plan, oracle: Oracle, call: Call, i: nat) returns (end: Call)
    requires OnlyOne((r: Route) => r.pattern, plan.emergencyRoutes, i) && DistinctNumbers(plan.location.extensions)
    requires forall b | b in plan.blocks :: !Blocks(b, plan.emergencyRoutes[i].pattern)
    requires call.live && call.pc == Pc("emergency", plan.emergencyRoutes[i].pattern, 0)
    ensures var r := plan.emergencyRoutes[i];
            && Reaches(Conf(plan), oracle, call, end)
            && EndsAs(call, end, Presented(plan.location, r.source, r.custom, call.caller),
                      Attempted(ActiveRouteTrunks(r.trunks), oracle, |call.dialed|), Requests(r))
  {
    var r := plan.emergencyRoutes[i];
    EmergencyRouteInFile(plan, i);
    if Requests(r) != [] { EmergencyHooks(plan, i); }
    var entered := EnterRoute(Conf(plan), oracle, call, RouteProgram(plan.location, r));
    assert r in plan.routes + plan.emergencyRoutes;
    end := RouteRuns(plan, oracle, entered, r);
    Ticks(Conf(plan), oracle, call, end);
  }

  lemma EmergencyRouteInFile(plan: Plan, i: nat)
    requires OnlyOne((r: Route) => r.pattern, plan.emergencyRoutes, i)
    requires forall b | b in plan.blocks :: !Blocks(b, plan.emergencyRoutes[i].pattern)
    ensures Steps(Conf(plan), "emergency", plan.emergencyRoutes[i].pattern)
              == RouteProgram(plan.location, plan.emergencyRoutes[i])
  {
    var r, at := plan.emergencyRoutes[i], Cursor("emergency", "");
    var f := (r: Route) => RouteLines(plan.location, r);
    EmergencyInFile(plan, r.pattern);
    CollectSplits(at, Each(BlockedLines, plan.blocks), Each(f, plan.emergencyRoutes), Cursor("emergency", r.pattern));
    BlocksElsewhere(plan.blocks, at, r.pattern);
    forall r ensures AllSame(RouteTail(plan.location, r)) { RouteTailPlainly(true, plan.location, r); }
    EachFinds(f, (r: Route) => r.pattern, (r: Route) => RouteTail(plan.location, r), plan.emergencyRoutes,
              CursorAfter(at, Each(BlockedLines, plan.blocks)), i);
  }

  // ----- paging and feature codes ---------------------------------------------------------------------------------

  function PagingTail(code: string): seq<Line> { [Same(None, Other("Page")), Same(None, Hangup)] }

  /** A call to a paging code pages, and is hung up. */
  lemma PagingCall(plan: Plan, oracle: Oracle, call: Call, i: nat) returns (end: Call)
    requires OnlyOne((code: string) => code, plan.pagingCodes, i)
    requires call.live && call.pc == Pc("paging", plan.pagingCodes[i], 0)
    ensures Steps(Conf(plan), "paging", plan.pagingCodes[i])
              == [Step(None, NoOp), Step(None, Other("Page")), Step(None, Hangup)]
    ensures Reaches(Conf(plan), oracle, call, end) && EndsHaving(call, end, [], [])
  {
    PagingCodeInFile(plan, i);
    end := TellsAndHangsUp(Conf(plan), oracle, call, "Page");
  }

  lemma PagingCodeInFile(plan: Plan, i: nat)
    requires OnlyOne((code: string) => code, plan.pagingCodes, i)
    ensures Steps(Conf(plan), "paging", plan.pagingCodes[i])
              == [Step(None, NoOp), Step(None, Other("Page")), Step(None, Hangup)]
  {
    PagingInFile(plan, plan.pagingCodes[i]);
    EachFinds(PagingLines, (code: string) => code, PagingTail, plan.pagingCodes, Cursor("paging", ""), i);
  }

  function FeatureTail(f: FeatureCode): seq<Line> { [Same(None, FeatureApp(f)), Same(None, Hangup)] }

  lemma FeatureInFile(plan: Plan, i: nat)
    requires OnlyOne((f: FeatureCode) => f.code, plan.features, i)
    ensures Steps(Conf(plan), "feature-codes", plan.features[i].code) == BlockSteps(NoOp, FeatureTail(plan.features[i]))
  {
    FeaturesInFile(plan, plan.features[i].code);
    EachFinds(FeatureLines, (f: FeatureCode) => f.code, FeatureTail, plan.features, Cursor("feature-codes", ""), i);
  }

  /** A call to a feature code runs the code's service and is hung up; or, on the paging prefix, goes to what was
      dialed behind the code, which is nothing when the code alone was; or goes to the code's destination; or,
      without one, is told so and hung up. */
  lemma FeatureCall(plan: Plan, oracle: Oracle, call: Call, i: nat) returns (next: Call)
    requires OnlyOne((f: FeatureCode) => f.code, plan.features, i)
    requires call.live && call.pc == Pc("feature-codes", plan.features[i].code, 0)
    ensures Reaches(Conf(plan), oracle, call, next)
    ensures var f := plan.features[i];
            match f.kind
            case Service(app) => EndsHaving(call, next, [], [])
              && Steps(Conf(plan), "feature-codes", f.code) == [Step(None, NoOp), Step(None, Other(app)),
                                                                Step(None, Hangup)]
            case PagingPrefix => next == call.(pc := Pc("paging", "", 0))
            case Custom => if f.destination == Missing then EndsHaving(call, next, [], [])
                           else SentTo(call, next, f.destination, [])
  {
    var f := plan.features[i];
    FeatureInFile(plan, i);
    var steps := BlockSteps(NoOp, FeatureTail(f));
    var entered := Tick(Conf(plan), oracle, call);
    if f.kind.PagingPrefix? {
      next := Tick(Conf(plan), oracle, entered);
      Ticks(Conf(plan), oracle, next, next);
      Ticks(Conf(plan), oracle, entered, next);
    } else if f.kind.Custom? && f.destination != Missing {
      SendsOn(Conf(plan), oracle, entered, steps, 1, f.destination);
      next := Tick(Conf(plan), oracle, entered);
    } else {
      next := RunsOut(Conf(plan), oracle, entered, steps, 1);
    }
    Ticks(Conf(plan), oracle, call, next);
  }

  // ----- IVRs ------------------------------------------------------------------------------------------------------

  /** What stands in an IVR's context: its entrance, and the ways out of it. */
  datatype Part = Entrance(mode: IvrMode) | Way(exten: string, destination: Destination)

  function PartName(p: Part): string {
    match p
    case Entrance(_) => "s"
    case Way(exten, _) => exten
  }

  function PartTail(p: Part): seq<Line> {
    match p
    case Entrance(Hours(_, _)) =>
      [Same(None, NoOp), Same(None, GotoIfTime("business-hours")), Same(None, GotoExten("after-hours"))]
    case Entrance(Menu(_, _)) => [Same(None, Other("Background")), Same(None, WaitExten), Same(None, GotoExten("t"))]
    case Way(_, d) => [Same(None, DestinationApp(d)), Same(None, Hangup)]
  }

  function PartLines(p: Part): seq<Line> { Block(PartName(p), NoOp, PartTail(p)) }

  function ModeParts(mode: IvrMode): seq<Part> {
    match mode
    case Hours(business, after) => [Entrance(mode), Way("business-hours", business), Way("after-hours", after)]
    case Menu(timeout, invalid) => [Entrance(mode), Way("t", timeout), Way("i", invalid)]
  }

  function OptionWays(options: seq<MenuOption>): (ways: seq<Part>)
    ensures |ways| == |options| && forall k | 0 <= k < |ways| ::
            ways[k] == Way(options[k].digit, options[k].destination)
  {
    seq(|options|, k requires 0 <= k < |options| => Way(options[k].digit, options[k].destination))
  }

  function Parts(ivr: Ivr): seq<Part> { ModeParts(ivr.mode) + OptionWays(ivr.options) }

  lemma {:induction false} EachJoins<T>(f: T -> seq<Line>, a: seq<T>, b: seq<T>)
    ensures Each(f, a + b) == Each(f, a) + Each(f, b)
  {
    if b == [] {
      assert a + b == a;
    } else {
      assert (a + b)[..|a + b| - 1] == a + b[..|b| - 1];
      EachJoins(f, a, b[..|b| - 1]);
    }
  }

  lemma {:induction false} OptionsAreWays(options: seq<MenuOption>)
    ensures Each(OptionLines, options) == Each(PartLines, OptionWays(options))
  {
    if options != [] {
      var init := options[..|options| - 1];
      OptionsAreWays(init);
      assert OptionWays(options)[..|options| - 1] == OptionWays(init);
    }
  }

  lemma EachOfThree<T>(f: T -> seq<Line>, a: T, b: T, c: T)
    ensures Each(f, [a, b, c]) == f(a) + f(b) + f(c)
  {
    assert [a, b, c][..2] == [a, b] && [a, b][..1] == [a] && [a][..0] == [];
    assert Each(f, [a]) == [] + f(a);
    assert Each(f, [a, b]) == Each(f, [a]) + f(b);
  }

  lemma BodyIsParts(ivr: Ivr)
    ensures IvrBody(ivr) == Each(PartLines, Parts(ivr))
  {
    var parts := ModeParts(ivr.mode);
    EachJoins(PartLines, parts, OptionWays(ivr.options));
    OptionsAreWays(ivr.options);
    EachOfThree(PartLines, parts[0], parts[1], parts[2]);
    assert parts == [parts[0], parts[1], parts[2]];
  }

  /** Every IVR has its own name, and so its own context. */
  predicate DistinctSlugs(ivrs: seq<Ivr>) {
    forall i, j | 0 <= i < j < |ivrs| :: ivrs[i].slug != ivrs[j].slug
  }

  /** No two parts of the IVR stand under one extension, and none under the name of the IVR behind it, whose
      entry the file puts into this context. */
  predicate Apart(plan: Plan, j: nat)
    requires j < |plan.ivrs|
  {
    && (forall a, b | 0 <= a < b < |Parts(plan.ivrs[j])| ::
          PartName(Parts(plan.ivrs[j])[a]) != PartName(Parts(plan.ivrs[j])[b]))
    && (j + 1 < |plan.ivrs| ==> forall p | p in Parts(plan.ivrs[j]) :: PartName(p) != plan.ivrs[j + 1].slug)
  }

  /** The lines behind an IVR's own, up to the next context. */
  function Stray(ivrs: seq<Ivr>, j: nat): seq<Line> {
    if j + 1 < |ivrs| then [Exten(ivrs[j + 1].slug, Goto(IvrContext(ivrs[j + 1].slug), "s")), Plain("")] else []
  }

  function Behind(plan: Plan, j: nat): seq<Line> {
    if j + 1 < |plan.ivrs| then OwnLines(plan.ivrs[j + 1]) + Each(IvrLines, plan.ivrs[j + 2..]) + AfterIvrs(plan)
    else AfterIvrs(plan)
  }

  lemma {:induction false} OtherIvrsLack(ivrs: seq<Ivr>, slug: string)
    requires forall i | 0 <= i < |ivrs| :: ivrs[i].slug != slug
    ensures Lacks(Each(IvrLines, ivrs), IvrContext(slug))
  {
    if ivrs != [] {
      var init, last := ivrs[..|ivrs| - 1], ivrs[|ivrs| - 1];
      OtherIvrsLack(init, slug);
      OwnLinesLack(last, slug);
      assert IvrLines(last) == [Exten(last.slug, Goto(IvrContext(last.slug), "s")), Plain("")] + OwnLines(last);
      LacksJoins([Exten(last.slug, Goto(IvrContext(last.slug), "s")), Plain("")], OwnLines(last), IvrContext(slug));
      LacksJoins(Each(IvrLines, init), IvrLines(last), IvrContext(slug));
    }
  }

  lemma OwnLinesLack(ivr: Ivr, slug: string)
    requires ivr.slug != slug
    ensures Lacks(OwnLines(ivr), IvrContext(slug))
  {
    IvrBodyPlainly(true, ivr);
    assert IvrContext(ivr.slug)[4..] == ivr.slug && IvrContext(slug)[4..] == slug;
    PlainlyLacks(IvrContext(ivr.slug), IvrBody(ivr), IvrContext(slug));
  }

  lemma FixedPartLacks(plan: Plan, slug: string)
    ensures Lacks(BeforeDestinations(plan) + [Context("ivrs")], IvrContext(slug))
    ensures Lacks(AfterIvrs(plan), IvrContext(slug)) && AfterIvrs(plan) != [] && AfterIvrs(plan)[0].Context?
  {
    var name := IvrContext(slug);
    BeforeLacks(plan, slug);
    IvrContextIsNew(slug);
    LacksJoins(BeforeDestinations(plan), [Context("ivrs")], name);
    DestinationParts(true, plan);
    PlainlyLacks("ring-groups", Each(RingGroupLines, plan.ringGroups), name);
    PlainlyLacks("queues", Each(QueueLines, plan.queues), name);
    HookLacks(plan, slug);
    LacksJoins([Context("queues")] + Each(QueueLines, plan.queues), HookSection(plan), name);
    LacksJoins([Context("ring-groups")] + Each(RingGroupLines, plan.ringGroups), QueueSection(plan), name);
  }

  lemma HookLacks(plan: Plan, slug: string)
    ensures Lacks(HookSection(plan), IvrContext(slug))
  {
    IvrContextIsNew(slug);
  }

  lemma BeforeLacks(plan: Plan, slug: string)
    ensures Lacks(BeforeDestinations(plan), IvrContext(slug))
  {
    var sections := PLUMBING + Calls(plan) + CallerIdSections(plan) + Services(plan);
    AllClosed(plan);
    NamesAreFixed(plan, slug);
    FlatLacks(sections, IvrContext(slug));
    HeadLacks(IvrContext(slug));
    LacksJoins(FILE_HEAD, Flat(sections), IvrContext(slug));
    BeforeIsFlat(plan);
  }

  lemma BeforeIsFlat(plan: Plan)
    ensures BeforeDestinations(plan)
              == FILE_HEAD + Flat(PLUMBING + Calls(plan) + CallerIdSections(plan) + Services(plan))
  {
    CallsAre(plan);
    CallerIdIs(plan);
    ServicesAre(plan);
    FlatJoins(PLUMBING + Calls(plan) + CallerIdSections(plan), Services(plan));
    FlatJoins(PLUMBING + Calls(plan), CallerIdSections(plan));
    ThreeJoin(FILE_HEAD, Flat(PLUMBING + Calls(plan)), CallerIdContext(plan), ServiceLines(plan));
  }

  lemma ThreeJoin(head: seq<Line>, a: seq<Line>, b: seq<Line>, c: seq<Line>)
    ensures (head + a) + b + c == head + (a + b + c)
  {
  }

  lemma NamesAreFixed(plan: Plan, slug: string)
    ensures Unnamed(PLUMBING + Calls(plan) + CallerIdSections(plan) + Services(plan), IvrContext(slug))
  {
    var name := IvrContext(slug);
    assert name[0] == 'i' && name[1] == 'v';
    NotAnIvr("inbound");
    IvrContextIsNew(slug);
    PlumbingUnnamed(name);
    UnnamedJoins(PLUMBING, Calls(plan), name);
    UnnamedJoins(PLUMBING + Calls(plan), CallerIdSections(plan), name);
    UnnamedJoins(PLUMBING + Calls(plan) + CallerIdSections(plan), Services(plan), name);
  }

  lemma NotAnIvr(name: string)
    requires name == "inbound"
    ensures name[0] == 'i' && name[1] == 'n'
  {
  }

  lemma PlumbingUnnamed(name: string)
    requires |name| > 0 && name[0] == 'i'
    ensures Unnamed(PLUMBING, name)
  {
  }

  lemma BehindLacks(plan: Plan, j: nat)
    requires j < |plan.ivrs| && DistinctSlugs(plan.ivrs)
    ensures Lacks(Behind(plan, j), IvrContext(plan.ivrs[j].slug)) && Behind(plan, j) != []
            && Behind(plan, j)[0].Context?
  {
    var slug := plan.ivrs[j].slug;
    FixedPartLacks(plan, slug);
    if j + 1 < |plan.ivrs| {
      OwnLinesLack(plan.ivrs[j + 1], slug);
      OtherIvrsLack(plan.ivrs[j + 2..], slug);
      LacksJoins(OwnLines(plan.ivrs[j + 1]), Each(IvrLines, plan.ivrs[j + 2..]), IvrContext(slug));
      LacksJoins(OwnLines(plan.ivrs[j + 1]) + Each(IvrLines, plan.ivrs[j + 2..]), AfterIvrs(plan), IvrContext(slug));
    }
  }

  /** The lines up to where the IVR opens its context. */
  function Ahead(plan: Plan, j: nat): seq<Line>
    requires j < |plan.ivrs|
  {
    BeforeDestinations(plan) + [Context("ivrs")] + Each(IvrLines, plan.ivrs[..j])
    + [Exten(plan.ivrs[j].slug, Goto(IvrContext(plan.ivrs[j].slug), "s")), Plain("")]
  }

  lemma AheadLacks(plan: Plan, j: nat)
    requires j < |plan.ivrs| && DistinctSlugs(plan.ivrs)
    ensures Lacks(Ahead(plan, j), IvrContext(plan.ivrs[j].slug))
  {
    var slug := plan.ivrs[j].slug;
    var entry := [Exten(slug, Goto(IvrContext(slug), "s")), Plain("")];
    FixedPartLacks(plan, slug);
    OtherIvrsLack(plan.ivrs[..j], slug);
    LacksJoins(BeforeDestinations(plan) + [Context("ivrs")], Each(IvrLines, plan.ivrs[..j]), IvrContext(slug));
    LacksJoins(BeforeDestinations(plan) + [Context("ivrs")] + Each(IvrLines, plan.ivrs[..j]), entry, IvrContext(slug));
  }

  lemma FileAroundIvr(plan: Plan, j: nat)
    requires j < |plan.ivrs|
    ensures var ivr := plan.ivrs[j];
            Conf(plan) == Ahead(plan, j) + [Context(IvrContext(ivr.slug))] + (IvrBody(ivr) + Stray(plan.ivrs, j))
                          + Behind(plan, j)
  {
    var ivr, rest := plan.ivrs[j], plan.ivrs[j + 1..];
    var entry := [Exten(ivr.slug, Goto(IvrContext(ivr.slug), "s")), Plain("")];
    DestinationsInFile(plan);
    assert plan.ivrs == plan.ivrs[..j] + plan.ivrs[j..] && plan.ivrs[j..][1..] == rest;
    EachJoins(IvrLines, plan.ivrs[..j], plan.ivrs[j..]);
    EachFirst(IvrLines, plan.ivrs[j..]);
    if j + 1 < |plan.ivrs| {
      EachFirst(IvrLines, rest);
      assert rest[1..] == plan.ivrs[j + 2..];
      IvrInRow(BeforeDestinations(plan) + [Context("ivrs")], Each(IvrLines, plan.ivrs[..j]), ivr, plan.ivrs[j + 1],
               Each(IvrLines, rest[1..]), AfterIvrs(plan));
    } else {
      IvrAtEnd(BeforeDestinations(plan) + [Context("ivrs")], Each(IvrLines, plan.ivrs[..j]), ivr, AfterIvrs(plan));
    }
  }

  function Entry(ivr: Ivr): seq<Line> { [Exten(ivr.slug, Goto(IvrContext(ivr.slug), "s")), Plain("")] }

  lemma IvrSplits(ivr: Ivr)
    ensures IvrLines(ivr) == Entry(ivr) + ([Context(IvrContext(ivr.slug))] + IvrBody(ivr))
  {
  }

  lemma IvrInRow(a: seq<Line>, b: seq<Line>, ivr: Ivr, next: Ivr, c: seq<Line>, d: seq<Line>)
    ensures a + (b + (IvrLines(ivr) + (IvrLines(next) + c))) + d
            == (a + b + Entry(ivr)) + [Context(IvrContext(ivr.slug))] + (IvrBody(ivr) + Entry(next))
               + (OwnLines(next) + c + d)
  {
    IvrSplits(ivr);
    IvrSplits(next);
    SevenRegroup(a, b, Entry(ivr), [Context(IvrContext(ivr.slug))], IvrBody(ivr), Entry(next), OwnLines(next), c, d);
  }

  lemma SevenRegroup(a: seq<Line>, b: seq<Line>, e: seq<Line>, o: seq<Line>, body: seq<Line>, n: seq<Line>,
                     own: seq<Line>,
                     c: seq<Line>, d: seq<Line>)
    ensures a + (b + ((e + (o + body)) + ((n + own) + c))) + d == (a + b + e) + o + (body + n) + (own + c + d)
  {
  }

  lemma IvrAtEnd(a: seq<Line>, b: seq<Line>, ivr: Ivr, d: seq<Line>)
    ensures a + (b + (IvrLines(ivr) + [])) + d
            == (a + b + Entry(ivr)) + [Context(IvrContext(ivr.slug))] + (IvrBody(ivr) + []) + d
  {
    IvrSplits(ivr);
    FourRegroup(a, b, Entry(ivr), [Context(IvrContext(ivr.slug))], IvrBody(ivr), d);
  }

  lemma FourRegroup(a: seq<Line>, b: seq<Line>, e: seq<Line>, o: seq<Line>, body: seq<Line>, d: seq<Line>)
    ensures a + (b + ((e + (o + body)) + [])) + d == (a + b + e) + o + (body + []) + d
  {
  }

  /** The extensions of an IVR's own context: its parts, and the entry of the next IVR. */
  lemma IvrInFile(plan: Plan, j: nat, exten: string)
    requires j < |plan.ivrs| && DistinctSlugs(plan.ivrs)
    requires j + 1 < |plan.ivrs| ==> exten != plan.ivrs[j + 1].slug
    ensures var at := Cursor(IvrContext(plan.ivrs[j].slug), "");
            Steps(Conf(plan), at.context, exten)
              == Collect(at, Each(PartLines, Parts(plan.ivrs[j])), Cursor(at.context, exten))
  {
    var ivr := plan.ivrs[j];
    var at, to := Cursor(IvrContext(ivr.slug), ""), Cursor(IvrContext(ivr.slug), exten);
    IvrSection(plan, j, exten);
    CollectSplits(at, IvrBody(ivr), Stray(plan.ivrs, j), to);
    BodyIsParts(ivr);
    PartsStayInside(at, Parts(ivr));
    if j + 1 < |plan.ivrs| {
      var app := Goto(IvrContext(plan.ivrs[j + 1].slug), "s");
      assert Stray(plan.ivrs, j) == Block(plan.ivrs[j + 1].slug, app, []);
      BlockCollects(CursorAfter(at, IvrBody(ivr)), plan.ivrs[j + 1].slug, app, [], to);
    }
  }

  lemma IvrSection(plan: Plan, j: nat, exten: string)
    requires j < |plan.ivrs| && DistinctSlugs(plan.ivrs)
    ensures var at := Cursor(IvrContext(plan.ivrs[j].slug), "");
            Steps(Conf(plan), at.context, exten)
              == Collect(at, IvrBody(plan.ivrs[j]) + Stray(plan.ivrs, j), Cursor(at.context, exten))
  {
    AheadLacks(plan, j);
    BehindLacks(plan, j);
    FileAroundIvr(plan, j);
    IvrBodyPlainly(true, plan.ivrs[j]);
    SectionSteps(Ahead(plan, j), IvrContext(plan.ivrs[j].slug), IvrBody(plan.ivrs[j]) + Stray(plan.ivrs, j),
                 Behind(plan, j), exten);
  }

  lemma {:induction false} PartsStayInside(at: Cursor, parts: seq<Part>)
    ensures CursorAfter(at, Each(PartLines, parts)).context == at.context
  {
    if parts != [] {
      var init, last := parts[..|parts| - 1], parts[|parts| - 1];
      PartsStayInside(at, init);
      CollectSplits(at, Each(PartLines, init), PartLines(last), at);
      PartStaysInside(CursorAfter(at, Each(PartLines, init)), last);
    }
  }

  lemma PartStaysInside(at: Cursor, p: Part)
    ensures CursorAfter(at, PartLines(p)).context == at.context
  {
    PartTailsAreSame();
    BlockCollects(at, PartName(p), NoOp, PartTail(p), at);
  }

  lemma PartInFile(plan: Plan, j: nat, k: nat)
    requires j < |plan.ivrs| && DistinctSlugs(plan.ivrs) && Apart(plan, j) && k < |Parts(plan.ivrs[j])|
    ensures var ivr := plan.ivrs[j]; var p := Parts(ivr)[k];
            AllSame(PartTail(p)) && Steps(Conf(plan), IvrContext(ivr.slug), PartName(p)) == BlockSteps(NoOp,
                                                                                                       PartTail(p))
  {
    var ivr := plan.ivrs[j];
    var p := Parts(ivr)[k];
    assert p in Parts(ivr);
    IvrInFile(plan, j, PartName(p));
    PartFound(Parts(ivr), Cursor(IvrContext(ivr.slug), ""), k);
  }

  lemma PartFound(parts: seq<Part>, at: Cursor, k: nat)
    requires k < |parts| && forall a, b | 0 <= a < b < |parts| :: PartName(parts[a]) != PartName(parts[b])
    ensures AllSame(PartTail(parts[k]))
    ensures Collect(at, Each(PartLines, parts), Cursor(at.context, PartName(parts[k])))
              == BlockSteps(NoOp, PartTail(parts[k]))
  {
    PartTailsAreSame();
    EachFinds(PartLines, PartName, PartTail, parts, at, k);
  }

  lemma PartTailsAreSame()
    ensures forall x: Part :: AllSame(PartTail(x))
  {
  }

  lemma NoPartInFile(plan: Plan, j: nat, exten: string)
    requires j < |plan.ivrs| && DistinctSlugs(plan.ivrs)
    requires j + 1 < |plan.ivrs| ==> exten != plan.ivrs[j + 1].slug
    requires forall p | p in Parts(plan.ivrs[j]) :: PartName(p) != exten
    ensures Steps(Conf(plan), IvrContext(plan.ivrs[j].slug), exten) == []
  {
    var ivr := plan.ivrs[j];
    IvrInFile(plan, j, exten);
    PartTailsAreSame();
    EachElsewhere(PartLines, PartName, PartTail, Parts(ivr), Cursor(IvrContext(ivr.slug), ""), exten);
  }

  /** Sent to the destination, or, if there is none, told so and hung up. */
  predicate Delivered(call: Call, next: Call, d: Destination) {
    if d == Missing then EndsHaving(call, next, [], []) else SentTo(call, next, d, [])
  }

  /** A way out, from its first priority. */
  lemma TakesWay(plan: Plan, oracle: Oracle, call: Call, j: nat, k: nat) returns (next: Call)
    requires j < |plan.ivrs| && DistinctSlugs(plan.ivrs) && Apart(plan, j) && k < |Parts(plan.ivrs[j])|
    requires Parts(plan.ivrs[j])[k].Way?
    requires call.live && call.pc == Pc(IvrContext(plan.ivrs[j].slug), PartName(Parts(plan.ivrs[j])[k]), 0)
    ensures Reaches(Conf(plan), oracle, call, next) && Delivered(call, next, Parts(plan.ivrs[j])[k].destination)
  {
    var p := Parts(plan.ivrs[j])[k];
    PartInFile(plan, j, k);
    next := WayRuns(Conf(plan), oracle, call, p.destination);
  }

  lemma WayRuns(lines: seq<Line>, oracle: Oracle, call: Call, d: Destination) returns (next: Call)
    requires Stands(lines, call, BlockSteps(NoOp, [Same(None, DestinationApp(d)), Same(None, Hangup)]), 0)
    ensures Reaches(lines, oracle, call, next) && Delivered(call, next, d)
  {
    var steps := BlockSteps(NoOp, [Same(None, DestinationApp(d)), Same(None, Hangup)]);
    var entered := Tick(lines, oracle, call);
    if d == Missing {
      next := RunsOut(lines, oracle, entered, steps, 1);
    } else {
      SendsOn(lines, oracle, entered, steps, 1, d);
      next := Tick(lines, oracle, entered);
    }
    Ticks(lines, oracle, call, next);
  }

  /** What of a call the ways out of an IVR keep. */
  predicate SameSoFar(call: Call, there: Call) {
    there.stack == call.stack && there.caller == call.caller && there.dialed == call.dialed
    && there.hooked == call.hooked
  }

  lemma ThenDelivered(call: Call, there: Call, next: Call, d: Destination)
    requires SameSoFar(call, there) && Delivered(there, next, d)
    ensures Delivered(call, next, d)
  {
  }

  /** An IVR with business hours sends its callers to one destination while they last and to the other after. */
  lemma HoursCall(plan: Plan, oracle: Oracle, call: Call, j: nat) returns (next: Call)
    requires j < |plan.ivrs| && DistinctSlugs(plan.ivrs) && Apart(plan, j) && plan.ivrs[j].mode.Hours?
    requires call.live && call.pc == Pc(IvrContext(plan.ivrs[j].slug), "s", 0)
    ensures var mode := plan.ivrs[j].mode;
            && Reaches(Conf(plan), oracle, call, next)
            && Delivered(call, next, if oracle.open(call.asked) then mode.business else mode.after)
  {
    var open := oracle.open(call.asked);
    PartInFile(plan, j, 0);
    var there := HoursDecide(Conf(plan), oracle, call, plan.ivrs[j].mode);
    next := TakesWay(plan, oracle, there, j, if open then 1 else 2);
    ThenDelivered(call, there, next, if open then plan.ivrs[j].mode.business else plan.ivrs[j].mode.after);
    Joins(Conf(plan), oracle, call, there, next);
  }

  lemma HoursDecide(lines: seq<Line>, oracle: Oracle, call: Call, mode: IvrMode) returns (there: Call)
    requires mode.Hours? && Stands(lines, call, BlockSteps(NoOp, PartTail(Entrance(mode))), 0)
    ensures Reaches(lines, oracle, call, there) && SameSoFar(call, there) && there.live
    ensures there.pc == Pc(call.pc.context, if oracle.open(call.asked) then "business-hours" else "after-hours", 0)
  {
    var a := Tick(lines, oracle, call);
    var b := Tick(lines, oracle, a);
    var c := Tick(lines, oracle, b);
    there := if oracle.open(call.asked) then c else Tick(lines, oracle, c);
    Ticks(lines, oracle, there, there);
    Ticks(lines, oracle, c, there);
    Ticks(lines, oracle, b, there);
    Ticks(lines, oracle, a, there);
    Ticks(lines, oracle, call, there);
  }

  /** Where the key a caller of a menu pressed leads. */
  predicate Leads(ivr: Ivr, key: string, d: Destination)
    requires ivr.mode.Menu?
  {
    if key == "" then d == ivr.mode.timeout
    else if exists o :: o in ivr.options && o.digit == key then
      exists o :: o in ivr.options && o.digit == key && o.destination == d
    else d == ivr.mode.invalid
  }

  /** A menu sends its callers where the key they press is set to, to the timeout's destination if they press none,
      and to the destination for invalid keys if they press another. */
  lemma MenuCall(plan: Plan, oracle: Oracle, call: Call, j: nat) returns (next: Call, d: Destination)
    requires j < |plan.ivrs| && DistinctSlugs(plan.ivrs) && Apart(plan, j) && plan.ivrs[j].mode.Menu?
    requires call.live && call.pc == Pc(IvrContext(plan.ivrs[j].slug), "s", 0)
    requires var key := oracle.key(call.asked);
             key !in {"s", "t", "i"} && (j + 1 < |plan.ivrs| ==> key != plan.ivrs[j + 1].slug)
    ensures Leads(plan.ivrs[j], oracle.key(call.asked), d)
    ensures Reaches(Conf(plan), oracle, call, next) && Delivered(call, next, d)
  {
    var ivr, key := plan.ivrs[j], oracle.key(call.asked);
    var k := KeysPart(plan, j, key);
    PartInFile(plan, j, 0);
    var there := MenuDecides(Conf(plan), oracle, call, ivr.mode, PartName(Parts(ivr)[k]));
    d := Parts(ivr)[k].destination;
    next := TakesWay(plan, oracle, there, j, k);
    ThenDelivered(call, there, next, d);
    Joins(Conf(plan), oracle, call, there, next);
  }

  /** The way out that a key takes. */
  lemma KeysPart(plan: Plan, j: nat, key: string) returns (k: nat)
    requires j < |plan.ivrs| && DistinctSlugs(plan.ivrs) && Apart(plan, j) && plan.ivrs[j].mode.Menu?
    requires key !in {"s", "t", "i"} && (j + 1 < |plan.ivrs| ==> key != plan.ivrs[j + 1].slug)
    ensures k < |Parts(plan.ivrs[j])|
    ensures var ivr := plan.ivrs[j]; var p := Parts(ivr)[k];
            && p.Way? && Leads(ivr, key, p.destination)
            && p.exten == (if key == "" then "t"
                           else if Steps(Conf(plan), IvrContext(ivr.slug), key) != [] then key else "i")
  {
    var ivr := plan.ivrs[j];
    MenuWays(ivr);
    if key == "" {
      k := 1;
    } else if exists o :: o in ivr.options && o.digit == key {
      k := OptionsPart(ivr, key);
      KeyInFile(plan, j, k);
    } else {
      k := 2;
      OtherKey(plan, j, key);
    }
  }

  lemma OtherKey(plan: Plan, j: nat, key: string)
    requires j < |plan.ivrs| && DistinctSlugs(plan.ivrs) && plan.ivrs[j].mode.Menu?
    requires key !in {"s", "t", "i"} && (j + 1 < |plan.ivrs| ==> key != plan.ivrs[j + 1].slug)
    requires forall o | o in plan.ivrs[j].options :: o.digit != key
    ensures Steps(Conf(plan), IvrContext(plan.ivrs[j].slug), key) == []
  {
    var ivr := plan.ivrs[j];
    forall p | p in Parts(ivr) ensures PartName(p) != key { PartsOfMenu(ivr, p, key); }
    NoPartInFile(plan, j, key);
  }

  lemma MenuWays(ivr: Ivr)
    requires ivr.mode.Menu?
    ensures |Parts(ivr)| >= 3 && Parts(ivr)[1] == Way("t", ivr.mode.timeout)
            && Parts(ivr)[2] == Way("i", ivr.mode.invalid)
  {
  }

  lemma KeyInFile(plan: Plan, j: nat, k: nat)
    requires j < |plan.ivrs| && DistinctSlugs(plan.ivrs) && Apart(plan, j) && k < |Parts(plan.ivrs[j])|
    ensures Steps(Conf(plan), IvrContext(plan.ivrs[j].slug), PartName(Parts(plan.ivrs[j])[k])) != []
  {
    PartInFile(plan, j, k);
  }

  lemma OptionsPart(ivr: Ivr, key: string) returns (k: nat)
    requires ivr.mode.Menu? && exists o :: o in ivr.options && o.digit == key
    ensures k < |Parts(ivr)| && Parts(ivr)[k].Way? && Parts(ivr)[k].exten == key
    ensures key != "" ==> Leads(ivr, key, Parts(ivr)[k].destination)
  {
    var o :| o in ivr.options && o.digit == key;
    var n :| 0 <= n < |ivr.options| && ivr.options[n] == o;
    k := 3 + n;
    assert Parts(ivr)[k] == OptionWays(ivr.options)[n];
  }

  lemma PartsOfMenu(ivr: Ivr, p: Part, key: string)
    requires ivr.mode.Menu? && p in Parts(ivr) && key !in {"s", "t", "i"}
    requires forall o | o in ivr.options :: o.digit != key
    ensures PartName(p) != key
  {
    if p in OptionWays(ivr.options) {
      var n :| 0 <= n < |ivr.options| && OptionWays(ivr.options)[n] == p;
      assert ivr.options[n] in ivr.options;
    }
  }

  lemma MenuDecides(lines: seq<Line>, oracle: Oracle, call: Call, mode: IvrMode, way: string) returns (there: Call)
    requires mode.Menu? && Stands(lines, call, BlockSteps(NoOp, PartTail(Entrance(mode))), 0)
    requires var key := oracle.key(call.asked);
             way == (if key == "" then "t" else if Steps(lines, call.pc.context, key) != [] then key else "i")
    ensures Reaches(lines, oracle, call, there) && SameSoFar(call, there) && there.live
    ensures there.pc == Pc(call.pc.context, way, 0)
  {
    var a := Tick(lines, oracle, call);
    var b := Tick(lines, oracle, a);
    there := Listens(lines, oracle, b, mode, way);
    Ticks(lines, oracle, a, there);
    Ticks(lines, oracle, call, there);
  }

  /** From the wait for a key on. */
  lemma Listens(lines: seq<Line>, oracle: Oracle, call: Call, mode: IvrMode, way: string) returns (there: Call)
    requires mode.Menu? && Stands(lines, call, BlockSteps(NoOp, PartTail(Entrance(mode))), 2)
    requires var key := oracle.key(call.asked);
             way == (if key == "" then "t" else if Steps(lines, call.pc.context, key) != [] then key else "i")
    ensures Reaches(lines, oracle, call, there) && SameSoFar(call, there) && there.live
    ensures there.pc == Pc(call.pc.context, way, 0)
  {
    var c := Tick(lines, oracle, call);
    there := if oracle.key(call.asked) == "" then Tick(lines, oracle, c) else c;
    Ticks(lines, oracle, there, there);
    Ticks(lines, oracle, c, there);
    Ticks(lines, oracle, call, there);
  }
}
