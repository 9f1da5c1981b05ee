/** The generated file as a list of contexts, and what the extensions of each are. */
module FileSections {
  import opened Wrappers
  import opened Dialplan
  import opened CallerId
  import opened RingGroups
  import opened ExtensionsConf
  import opened ConfFacts
  import opened ConfTargets

  // ----- contexts in a row -------------------------------------------------------------------------------

  datatype Section = Section(name: string, body: seq<Line>)

  function Flat(sections: seq<Section>): seq<Line> {
    if sections == [] then []
    else Flat(sections[..|sections| - 1]) + Opened(sections[|sections| - 1])
  }

  function Opened(s: Section): seq<Line> { [Context(s.name)] + s.body }

  predicate Closed(sections: seq<Section>) { forall s | s in sections :: NoContext(s.body) }

  predicate Unnamed(sections: seq<Section>, name: string) { forall s | s in sections :: s.name != name }

  lemma {:induction false} FlatJoins(a: seq<Section>, b: seq<Section>)
    ensures Flat(a + b) == Flat(a) + Flat(b)
  {
    if b == [] {
      assert a + b == a;
    } else {
      assert (a + b)[..|a + b| - 1] == a + b[..|b| - 1];
      FlatJoins(a, b[..|b| - 1]);
    }
  }

  lemma {:induction false} FlatLacks(sections: seq<Section>, name: string)
    requires Closed(sections) && Unnamed(sections, name)
    ensures Lacks(Flat(sections), name)
  {
    if sections != [] {
      var last := sections[|sections| - 1];
      assert last in sections;
      FlatLacks(sections[..|sections| - 1], name);
      PlainlyLacks(last.name, last.body, name);
      LacksJoins(Flat(sections[..|sections| - 1]), Opened(last), name);
    }
  }

  lemma {:induction false} FlatOpens(sections: seq<Section>)
    requires sections != []
    ensures Flat(sections) != [] && Flat(sections)[0].Context?
  {
    if |sections| > 1 {
      FlatOpens(sections[..|sections| - 1]);
    } else {
      assert Flat(sections[..0]) == [];
    }
  }

  /** The lines around a context do not matter to its extensions, if they do not open it. */
  lemma SectionAmong(head: seq<Line>, a: seq<Section>, s: Section, b: seq<Section>, rest: seq<Line>, exten: string)
    requires Closed(a + [s] + b) && Unnamed(a, s.name) && Unnamed(b, s.name) && s.name != ""
    requires Lacks(head, s.name) && Lacks(rest, s.name) && rest != [] && rest[0].Context?
    ensures Steps(head + Flat(a + [s] + b) + rest, s.name, exten)
              == Collect(Cursor(s.name, ""), s.body, Cursor(s.name, exten))
  {
    assert s in a + [s] + b;
    forall x | x in a || x in b ensures x in a + [s] + b { }
    FlatLacks(a, s.name);
    FlatLacks(b, s.name);
    if b != [] { FlatOpens(b); }
    LacksJoins(head, Flat(a), s.name);
    LacksJoins(Flat(b), rest, s.name);
    FlatJoins(a + [s], b);
    FlatJoins(a, [s]);
    assert Flat([s]) == [] + Opened(s);
    Around(head, Flat(a), Context(s.name), s.body, Flat(b), rest);
    SectionSteps(head + Flat(a), s.name, s.body, Flat(b) + rest, exten);
  }

  lemma Around(head: seq<Line>, a: seq<Line>, opens: Line, body: seq<Line>, b: seq<Line>, rest: seq<Line>)
    ensures head + (a + ([opens] + body) + b) + rest == head + a + [opens] + body + (b + rest)
    ensures a + ([] + ([opens] + body)) + b == a + ([opens] + body) + b
  {
  }

  // ----- the file's contexts -------------------------------------------------------------------------------

  const FILE_HEAD: seq<Line> := [Plain("; Dialplan")]

  const PLUMBING: seq<Section> := [
    Section("globals", [Plain("LOCAL_PBX"), Plain("RECORDING_RETENTION_DAYS"), Plain("")]),
    Section("from-pjsip", [
              Plain("include => emergency"), Plain("include => local-extensions"),
                  Plain("include => remote-extensions"),
              Plain("include => feature-codes"), Plain("include => voicemail"), Plain("include => paging"),
              Plain("include => outbound"), Plain("")]),
    Section("from-iax2", [Plain("include => local-extensions"), Plain("include => inbound"), Plain("")])]

  function LocalSection(plan: Plan): Section { Section("local-extensions", Each(LocalLines, plan.locals)) }

  function RemoteSection(plan: Plan): Section { Section("remote-extensions", Each(RemoteLines, plan.remotes)) }

  function InboundSection(plan: Plan): Section {
    Section("inbound", Each(DidLines, plan.dids) + DefaultLines(plan.defaultDestination))
  }

  function OutboundSection(plan: Plan): Section {
    Section("outbound", Each((r: Route) => RouteLines(plan.location, r), plan.routes))
  }

  function EmergencySection(plan: Plan): Section {
    Section("emergency", Each(BlockedLines, plan.blocks)
                         + Each((r: Route) => RouteLines(plan.location, r), plan.emergencyRoutes))
  }

  function CallerIdSections(plan: Plan): seq<Section> {
    if UsesExtensionDid(plan.routes + plan.emergencyRoutes) then
      [Section(SUBROUTINE, Block("s", NoOp, SubroutineTail(Special(plan.location, plan.location.extensions))))]
    else []
  }

  function PagingSection(plan: Plan): Section { Section("paging", Each(PagingLines, plan.pagingCodes)) }

  function FeatureSection(plan: Plan): Section { Section("feature-codes", Each(FeatureLines, plan.features)) }

  function Calls(plan: Plan): seq<Section> {
    [LocalSection(plan), RemoteSection(plan), InboundSection(plan), OutboundSection(plan), EmergencySection(plan)]
  }

  function Services(plan: Plan): seq<Section> {
    [Section("voicemail", VoicemailLines()), PagingSection(plan), FeatureSection(plan)]
  }

  /** From `[ivrs]` on. */
  function Targets(plan: Plan): seq<Line> { DestinationLines(plan) + HookSection(plan) }

  /** The file, context by context: the emergency routes are included first for phones, and only inbound numbers
      and local extensions are reachable from other sites. */
  lemma FileIs(plan: Plan)
    ensures Conf(plan)
              == FILE_HEAD + Flat(PLUMBING + Calls(plan) + CallerIdSections(plan) + Services(plan)) + Targets(plan)
  {
    CallsAre(plan);
    CallerIdIs(plan);
    ServicesAre(plan);
    FlatJoins(PLUMBING + Calls(plan) + CallerIdSections(plan), Services(plan));
    FlatJoins(PLUMBING + Calls(plan), CallerIdSections(plan));
    Joined(FILE_HEAD, Flat(PLUMBING + Calls(plan)), CallerIdContext(plan), ServiceLines(plan), DestinationLines(plan),
           HookSection(plan));
  }

  lemma Joined(head: seq<Line>, a: seq<Line>, b: seq<Line>, c: seq<Line>, d: seq<Line>, e: seq<Line>)
    ensures (head + a) + b + c + d + e == head + (a + b + c) + (d + e)
  {
  }

  lemma FlatOfTwo(a: Section, b: Section)
    ensures Flat([a, b]) == Opened(a) + Opened(b)
  {
    assert [a, b][..1] == [a] && [a][..0] == [];
    assert Flat([a]) == [] + Opened(a);
  }

  lemma FlatOfThree(a: Section, b: Section, c: Section)
    ensures Flat([a, b, c]) == Opened(a) + Opened(b) + Opened(c)
  {
    assert [a, b, c][..2] == [a, b];
    FlatOfTwo(a, b);
  }

  lemma CallsAre(plan: Plan)
    ensures BeforeSubroutine(plan) == FILE_HEAD + Flat(PLUMBING + Calls(plan))
  {
    FlatJoins(PLUMBING, Calls(plan));
    FlatOfThree(PLUMBING[0], PLUMBING[1], PLUMBING[2]);
    assert PLUMBING == [PLUMBING[0], PLUMBING[1], PLUMBING[2]];
    PlumbingIs();
    CallsFlat(plan);
    OpeningRegroups(FILE_HEAD, Flat(PLUMBING), Each(LocalLines, plan.locals), Each(RemoteLines, plan.remotes),
                    Each(DidLines, plan.dids), DefaultLines(plan.defaultDestination), OutboundLines(plan),
                    EmergencyLines(plan));
  }

  lemma PlumbingIs()
    ensures INCLUDES == FILE_HEAD + (Opened(PLUMBING[0]) + Opened(PLUMBING[1]) + Opened(PLUMBING[2]))
                        + [Context("local-extensions")]
  {
  }

  lemma CallsFlat(plan: Plan)
    ensures Flat(Calls(plan))
              == Opened(LocalSection(plan)) + Opened(RemoteSection(plan)) + Opened(InboundSection(plan))
                 + (OutboundLines(plan) + EmergencyLines(plan))
  {
    FlatJoins([LocalSection(plan), RemoteSection(plan), InboundSection(plan)],
              [OutboundSection(plan), EmergencySection(plan)]);
    assert Calls(plan) == [LocalSection(plan), RemoteSection(plan), InboundSection(plan)]
                          + [OutboundSection(plan), EmergencySection(plan)];
    FlatOfThree(LocalSection(plan), RemoteSection(plan), InboundSection(plan));
    FlatOfTwo(OutboundSection(plan), EmergencySection(plan));
    EmergencyRegroups(Each(BlockedLines, plan.blocks),
                      Each((r: Route) => RouteLines(plan.location, r), plan.emergencyRoutes));
  }

  lemma EmergencyRegroups(blocks: seq<Line>, routes: seq<Line>)
    ensures [Context("emergency")] + blocks + routes == [Context("emergency")] + (blocks + routes)
  {
  }

  lemma OpeningRegroups(head: seq<Line>, plumbing: seq<Line>, locals: seq<Line>, remotes: seq<Line>, dids: seq<Line>,
                        default: seq<Line>, outbound: seq<Line>, emergency: seq<Line>)
    ensures (head + plumbing + [Context("local-extensions")] + locals
             + ([Context("remote-extensions")] + remotes + [Context("inbound")] + dids + default)) + outbound
                 + emergency
            == head + (plumbing + (([Context("local-extensions")] + locals) + ([Context("remote-extensions")] + remotes)
                                   + ([Context("inbound")] + (dids + default)) + (outbound + emergency)))
  {
  }

  lemma CallerIdIs(plan: Plan)
    ensures Flat(CallerIdSections(plan)) == CallerIdContext(plan)
  {
    if UsesExtensionDid(plan.routes + plan.emergencyRoutes) {
      var s := CallerIdSections(plan)[0];
      assert [s][..0] == [] && Flat([s]) == [] + Opened(s);
    }
  }

  lemma ServicesAre(plan: Plan)
    ensures Flat(Services(plan)) == ServiceLines(plan)
  {
    FlatOfThree(Section("voicemail", VoicemailLines()), PagingSection(plan), FeatureSection(plan));
    ServicesRegroup(VoicemailLines(), Each(PagingLines, plan.pagingCodes), Each(FeatureLines, plan.features));
  }

  lemma ServicesRegroup(voicemail: seq<Line>, paging: seq<Line>, features: seq<Line>)
    ensures [Context("voicemail")] + voicemail + [Context("paging")] + paging + [Context("feature-codes")] + features
            == ([Context("voicemail")] + voicemail) + ([Context("paging")] + paging)
               + ([Context("feature-codes")] + features)
  {
  }

  // ----- which names are whose ---------------------------------------------------------------------------------

  predicate CallName(name: string) {
    name in {"local-extensions", "remote-extensions", "inbound", "emergency", "paging", "feature-codes"}
  }

  lemma TargetsLack(plan: Plan, name: string)
    requires CallName(name)
    ensures Lacks(Targets(plan), name) && Targets(plan) != [] && Targets(plan)[0] == Context("ivrs")
  {
    DestinationParts(true, plan);
    IvrsLackCalls(plan.ivrs, name);
    ThreeLack(Each(IvrLines, plan.ivrs), Each(RingGroupLines, plan.ringGroups), Each(QueueLines, plan.queues), name);
    HookSectionLacks(plan, name);
    LacksJoins(DestinationLines(plan), HookSection(plan), name);
    assert Targets(plan)[0] == DestinationLines(plan)[0];
  }

  lemma ThreeLack(ivrs: seq<Line>, groups: seq<Line>, queues: seq<Line>, name: string)
    requires CallName(name) && Lacks(ivrs, name) && NoContext(groups) && NoContext(queues)
    ensures Lacks([Context("ivrs")] + ivrs + [Context("ring-groups")] + groups + [Context("queues")] + queues, name)
  {
    LacksJoins([Context("ivrs")], ivrs, name);
    LacksJoins([Context("ivrs")] + ivrs, [Context("ring-groups")], name);
    LacksJoins([Context("ivrs")] + ivrs + [Context("ring-groups")], groups, name);
    LacksJoins([Context("ivrs")] + ivrs + [Context("ring-groups")] + groups, [Context("queues")], name);
  }

  lemma IvrsLackCalls(ivrs: seq<Ivr>, name: string)
    requires CallName(name)
    ensures Lacks(Each(IvrLines, ivrs), name)
  {
    IvrContexts(ivrs);
    if Context(name) in Each(IvrLines, ivrs) {
      var slug :| name == IvrContext(slug);
      StartsIvr(slug);
    }
  }

  lemma StartsIvr(slug: string)
    ensures !CallName(IvrContext(slug))
  {
    var name := IvrContext(slug);
    assert name[0] == 'i' && name[1] == 'v';
    if CallName(name) { CallNameStarts(name); }
  }

  lemma CallNameStarts(name: string)
    requires CallName(name)
    ensures |name| >= 2 && (name[0] != 'i' || name[1] != 'v')
  {
  }

  lemma ClosedJoins(a: seq<Section>, b: seq<Section>)
    requires Closed(a) && Closed(b)
    ensures Closed(a + b)
  {
  }

  lemma AllClosed(plan: Plan)
    ensures Closed(PLUMBING + Calls(plan) + CallerIdSections(plan) + Services(plan))
  {
    CallsClosed(plan);
    ServicesClosed(plan);
    CallerIdClosed(plan);
    ClosedJoins(PLUMBING, Calls(plan));
    ClosedJoins(PLUMBING + Calls(plan), CallerIdSections(plan));
    ClosedJoins(PLUMBING + Calls(plan) + CallerIdSections(plan), Services(plan));
  }

  lemma CallsClosed(plan: Plan)
    ensures Closed(Calls(plan)) && Closed(PLUMBING)
  {
    InboundClosed(plan);
    RoutesClosed(plan);
    FiveClosed(LocalSection(plan), RemoteSection(plan), InboundSection(plan), OutboundSection(plan),
               EmergencySection(plan));
    PlumbingClosed();
  }

  lemma FiveClosed(a: Section, b: Section, c: Section, d: Section, e: Section)
    requires NoContext(a.body) && NoContext(b.body) && NoContext(c.body) && NoContext(d.body) && NoContext(e.body)
    ensures Closed([a, b, c, d, e])
  {
  }

  lemma PlumbingClosed()
    ensures Closed(PLUMBING)
  {
    assert NoContext(PLUMBING[0].body) && NoContext(PLUMBING[1].body) && NoContext(PLUMBING[2].body);
  }

  lemma InboundClosed(plan: Plan)
    ensures NoContext(LocalSection(plan).body) && NoContext(RemoteSection(plan).body)
    ensures NoContext(InboundSection(plan).body)
  {
    InboundParts(true, plan);
    NoContextJoins(Each(DidLines, plan.dids), DefaultLines(plan.defaultDestination));
  }

  lemma RoutesClosed(plan: Plan)
    ensures NoContext(OutboundSection(plan).body) && NoContext(EmergencySection(plan).body)
  {
    EmergencyParts(true, plan);
    RoutesPlainly(true, plan.location, plan.routes);
    RoutesPlainly(true, plan.location, plan.emergencyRoutes);
    NoContextJoins(Each(BlockedLines, plan.blocks),
                   Each((r: Route) => RouteLines(plan.location, r), plan.emergencyRoutes));
  }

  lemma NoContextJoins(a: seq<Line>, b: seq<Line>)
    requires NoContext(a) && NoContext(b)
    ensures NoContext(a + b)
  {
  }

  lemma ServicesClosed(plan: Plan)
    ensures Closed(Services(plan))
  {
    ServiceParts(true, plan);
  }

  lemma CallerIdClosed(plan: Plan)
    ensures Closed(CallerIdSections(plan))
  {
    SubroutineTailPlainly(true, plan.location);
    BlockPlainly(true, "s", NoOp, SubroutineTail(Special(plan.location, plan.location.extensions)));
  }

  // ----- a context of the file ---------------------------------------------------------------------------------

  lemma HeadLacks(name: string)
    ensures Lacks(FILE_HEAD, name)
  {
  }

  /** The extensions of one of the calls' or services' contexts are those of its own lines. */
  lemma SectionInFile(plan: Plan, a: seq<Section>, s: Section, b: seq<Section>, exten: string)
    requires PLUMBING + Calls(plan) + CallerIdSections(plan) + Services(plan) == a + [s] + b
    requires CallName(s.name) && Unnamed(a, s.name) && Unnamed(b, s.name)
    ensures Steps(Conf(plan), s.name, exten) == Collect(Cursor(s.name, ""), s.body, Cursor(s.name, exten))
  {
    FileIs(plan);
    AllClosed(plan);
    HeadLacks(s.name);
    TargetsLack(plan, s.name);
    SectionAmong(FILE_HEAD, a, s, b, Targets(plan), exten);
  }

  lemma OtherNames(plan: Plan, name: string)
    requires CallName(name)
    ensures Unnamed(PLUMBING, name) && Unnamed(CallerIdSections(plan), name)
  {
  }

  lemma UnnamedJoins(a: seq<Section>, b: seq<Section>, name: string)
    requires Unnamed(a, name) && Unnamed(b, name)
    ensures Unnamed(a + b, name)
  {
  }

  /** One of the calls' contexts, with the others named. */
  lemma CallSectionInFile(plan: Plan, a: seq<Section>, s: Section, b: seq<Section>, exten: string)
    requires Calls(plan) == a + [s] + b && CallName(s.name) && Unnamed(a, s.name) && Unnamed(b, s.name)
    requires Unnamed(Services(plan), s.name)
    ensures Steps(Conf(plan), s.name, exten) == Collect(Cursor(s.name, ""), s.body, Cursor(s.name, exten))
  {
    OtherNames(plan, s.name);
    UnnamedJoins(PLUMBING, a, s.name);
    UnnamedJoins(b, CallerIdSections(plan), s.name);
    UnnamedJoins(b + CallerIdSections(plan), Services(plan), s.name);
    MiddleRegroups(PLUMBING, a, s, b, CallerIdSections(plan), Services(plan));
    SectionInFile(plan, PLUMBING + a, s, b + CallerIdSections(plan) + Services(plan), exten);
  }

  lemma MiddleRegroups(p: seq<Section>, a: seq<Section>, s: Section, b: seq<Section>, c: seq<Section>, d: seq<Section>)
    ensures p + (a + [s] + b) + c + d == (p + a) + [s] + (b + c + d)
    ensures (p + c + d) + (a + [s] + b) == (p + c + d + a) + [s] + b
  {
  }

  lemma ServiceSectionInFile(plan: Plan, a: seq<Section>, s: Section, b: seq<Section>, exten: string)
    requires Services(plan) == a + [s] + b && CallName(s.name) && Unnamed(a, s.name) && Unnamed(b, s.name)
    requires Unnamed(Calls(plan), s.name)
    ensures Steps(Conf(plan), s.name, exten) == Collect(Cursor(s.name, ""), s.body, Cursor(s.name, exten))
  {
    OtherNames(plan, s.name);
    UnnamedJoins(PLUMBING, Calls(plan), s.name);
    UnnamedJoins(PLUMBING + Calls(plan), CallerIdSections(plan), s.name);
    UnnamedJoins(PLUMBING + Calls(plan) + CallerIdSections(plan), a, s.name);
    MiddleRegroups(PLUMBING, a, s, b, Calls(plan), CallerIdSections(plan));
    SectionInFile(plan, PLUMBING + Calls(plan) + CallerIdSections(plan) + a, s, b, exten);
  }

  lemma LocalInFile(plan: Plan, exten: string)
    ensures Steps(Conf(plan), "local-extensions", exten)
              == Collect(Cursor("local-extensions", ""), Each(LocalLines, plan.locals),
                         Cursor("local-extensions", exten))
  {
    var b := [RemoteSection(plan), InboundSection(plan), OutboundSection(plan), EmergencySection(plan)];
    assert Calls(plan) == [] + [LocalSection(plan)] + b;
    CallSectionInFile(plan, [], LocalSection(plan), b, exten);
  }

  lemma RemoteInFile(plan: Plan, exten: string)
    ensures Steps(Conf(plan), "remote-extensions", exten)
              == Collect(Cursor("remote-extensions", ""), Each(RemoteLines, plan.remotes),
                         Cursor("remote-extensions", exten))
  {
    var b := [InboundSection(plan), OutboundSection(plan), EmergencySection(plan)];
    assert Calls(plan) == [LocalSection(plan)] + [RemoteSection(plan)] + b;
    CallSectionInFile(plan, [LocalSection(plan)], RemoteSection(plan), b, exten);
  }

  lemma InboundInFile(plan: Plan, exten: string)
    ensures Steps(Conf(plan), "inbound", exten)
              == Collect(Cursor("inbound", ""), Each(DidLines, plan.dids) + DefaultLines(plan.defaultDestination),
                         Cursor("inbound", exten))
  {
    var a, b := [LocalSection(plan), RemoteSection(plan)], [OutboundSection(plan), EmergencySection(plan)];
    assert Calls(plan) == a + [InboundSection(plan)] + b;
    CallSectionInFile(plan, a, InboundSection(plan), b, exten);
  }

  lemma EmergencyInFile(plan: Plan, exten: string)
    ensures Steps(Conf(plan), "emergency", exten)
              == Collect(Cursor("emergency", ""),
                         Each(BlockedLines, plan.blocks)
                         + Each((r: Route) => RouteLines(plan.location, r), plan.emergencyRoutes),
                         Cursor("emergency", exten))
  {
    var a := [LocalSection(plan), RemoteSection(plan), InboundSection(plan), OutboundSection(plan)];
    assert Calls(plan) == a + [EmergencySection(plan)] + [];
    CallSectionInFile(plan, a, EmergencySection(plan), [], exten);
  }

  lemma PagingInFile(plan: Plan, exten: string)
    ensures Steps(Conf(plan), "paging", exten)
              == Collect(Cursor("paging", ""), Each(PagingLines, plan.pagingCodes), Cursor("paging", exten))
  {
    var a, b := [Section("voicemail", VoicemailLines())], [FeatureSection(plan)];
    assert Services(plan) == a + [PagingSection(plan)] + b;
    ServiceSectionInFile(plan, a, PagingSection(plan), b, exten);
  }

  lemma FeaturesInFile(plan: Plan, exten: string)
    ensures Steps(Conf(plan), "feature-codes", exten)
              == Collect(Cursor("feature-codes", ""), Each(FeatureLines, plan.features), Cursor("feature-codes", exten))
  {
    var a := [Section("voicemail", VoicemailLines()), PagingSection(plan)];
    assert Services(plan) == a + [FeatureSection(plan)] + [];
    ServiceSectionInFile(plan, a, FeatureSection(plan), [], exten);
  }
}
