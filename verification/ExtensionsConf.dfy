/** `extensions.conf` as `_render_extensions_conf` writes it: the records it reads, the lines each of
    them becomes, and the renderers that grow the list of lines while they carry the flag that decides
    whether the recording hooks are emitted. */
module ExtensionsConf {
  import opened Wrappers
  import opened PyStrings
  import opened Dialplan
  import opened CallerId
  import opened RingGroups

  // ----- records -------------------------------------------------------------------------------------

  /** Names of IVRs, ring groups, queues and routes appear as their slugs. */
  datatype Destination =
    | Missing
    | ToExtension(number: string)
    | ToIvr(slug: string)
    | ToRingGroup(slug: string)
    | ToQueue(slug: string)

  datatype LocalChoice = LocalChoice(number: string, target: string, policy: string, voicemail: bool)

  datatype RemoteChoice = RemoteChoice(number: string, target: string)

  datatype InboundDid = InboundDid(number: string, destination: Destination)

  datatype Trunk = Trunk(name: string, target: string, active: bool)

  datatype RouteTrunk = RouteTrunk(priority: int, trunk: Trunk)

  datatype Route = Route(pattern: string, slug: string, source: Source, custom: string, policy: string,
                         trunks: seq<RouteTrunk>)

  datatype EmergencyBlock = EmergencyBlock(extension: string, patterns: seq<string>)

  datatype FeatureKind = Service(app: string) | PagingPrefix | Custom

  datatype FeatureCode = FeatureCode(code: string, kind: FeatureKind, destination: Destination)

  datatype MenuOption = MenuOption(digit: string, destination: Destination)

  /** Business-hours routing when both destinations are set, a menu otherwise. */
  datatype IvrMode =
    | Hours(business: Destination, after: Destination)
    | Menu(timeout: Destination, invalid: Destination)

  datatype Ivr = Ivr(slug: string, mode: IvrMode, options: seq<MenuOption>)

  datatype RingGroup = RingGroup(slug: string, strategy: Strategy, members: seq<Member>)

  datatype Queue = Queue(slug: string, policy: string, overflow: Destination)

  datatype Plan = Plan(
    location: Location, locals: seq<LocalChoice>, remotes: seq<RemoteChoice>, dids: seq<InboundDid>,
    defaultDestination: Destination, routes: seq<Route>, blocks: seq<EmergencyBlock>, emergencyRoutes: seq<Route>,
    pagingCodes: seq<string>, features: seq<FeatureCode>, ivrs: seq<Ivr>, ringGroups: seq<RingGroup>,
        queues: seq<Queue>)

  // ----- lines -----------------------------------------------------------------------------------------

  /** `items` in order, each turned into lines. */
  function Each<T>(f: T -> seq<Line>, items: seq<T>): seq<Line> {
    if items == [] then [] else Each(f, items[..|items| - 1]) + f(items[|items| - 1])
  }

  function DestinationApp(d: Destination): App {
    match d
    case Missing => Other("Playback(invalid)")
    case ToExtension(number) => Goto("local-extensions", number)
    case ToIvr(slug) => Goto("ivrs", slug)
    case ToRingGroup(slug) => Goto("ring-groups", slug)
    case ToQueue(slug) => Goto("queues", slug)
  }

  predicate Recorded(policy: string) { policy in {"always", "on_demand"} }

  function HookLines(sourceType: string, sourceId: string, policy: string): seq<Line> {
    if Recorded(policy) then [Same(None, Gosub(RECORDING_HOOKS, "s", [Text(sourceType), Text(sourceId), Text(policy)]))]
    else []
  }

  function LocalTail(e: LocalChoice): seq<Line> {
    HookLines("extension", e.number, e.policy) + [Same(None, Dial(e.target))]
    + (if e.voicemail then [Same(None, Other("VoiceMail"))] else []) + [Same(None, Hangup)]
  }

  function LocalLines(e: LocalChoice): seq<Line> { Block(e.number, NoOp, LocalTail(e)) }

  function RemoteLines(e: RemoteChoice): seq<Line> {
    Block(e.number, NoOp, [Same(None, Dial(e.target)), Same(None, Hangup)])
  }

  function DidLines(d: InboundDid): seq<Line> { Block(d.number, NoOp, [Same(None, DestinationApp(d.destination))]) }

  function DefaultLines(d: Destination): seq<Line> {
    if d == Missing then [] else Block("s", NoOp, [Same(None, DestinationApp(d))])
  }

  /** `sorted(links, key=(priority, trunk name))` over the links whose trunk is active. */
  predicate Earlier(a: RouteTrunk, b: RouteTrunk) {
    a.priority < b.priority || (a.priority == b.priority && Below(a.trunk.name, b.trunk.name))
  }

  function InsertLink(link: RouteTrunk, sorted: seq<RouteTrunk>): seq<RouteTrunk> {
    if sorted == [] || Earlier(link, sorted[0]) then [link] + sorted else [sorted[0]] + InsertLink(link, sorted[1..])
  }

  function ActiveRouteTrunks(links: seq<RouteTrunk>): seq<RouteTrunk> {
    if links == [] then []
    else
      var rest := ActiveRouteTrunks(links[..|links| - 1]);
      var last := links[|links| - 1];
      if last.trunk.active then InsertLink(last, rest) else rest
  }

  function DialLines(links: seq<RouteTrunk>): seq<Line> {
    seq(|links|, i requires 0 <= i < |links| => Same(None, Dial(links[i].trunk.target)))
  }

  function RouteTail(loc: Location, r: Route): seq<Line> {
    var links := ActiveRouteTrunks(r.trunks);
    RouteCallerIdLines(loc, r.source, r.custom)
    + (if links == [] then [Same(None, Other("Playback")), Same(None, Hangup)]
       else HookLines("route", r.slug, r.policy) + DialLines(links) + [Same(None, Hangup)])
  }

  function RouteLines(loc: Location, r: Route): seq<Line> { Block(r.pattern, NoOp, RouteTail(loc, r)) }

  function BlockedLines(b: EmergencyBlock): seq<Line> {
    Each(pattern => Block(pattern + "/" + b.extension, NoOp, [Same(None, Other("Playback")), Same(None, Hangup)]),
         b.patterns)
  }

  function VoicemailLines(): seq<Line> {
    [Exten("*97", Other("VoiceMailMain")), Same(None, Hangup)] + Block("*98", Other("VoiceMailMain"),
                                                                       [Same(None, Hangup)])
  }

  function PagingLines(code: string): seq<Line> { Block(code, NoOp, [Same(None, Other("Page")), Same(None, Hangup)]) }

  function FeatureApp(f: FeatureCode): App {
    match f.kind
    case Service(app) => Other(app)
    case PagingPrefix => GotoRest("paging", |f.code|)
    case Custom => if f.destination == Missing then Other("Playback") else DestinationApp(f.destination)
  }

  function FeatureLines(f: FeatureCode): seq<Line> {
    Block(f.code, NoOp, [Same(None, FeatureApp(f)), Same(None, Hangup)])
  }

  function IvrContext(slug: string): string { "ivr-" + slug }

  function Branch(exten: string, d: Destination): seq<Line> {
    Block(exten, NoOp, [Same(None, DestinationApp(d)), Same(None, Hangup)])
  }

  function OptionLines(o: MenuOption): seq<Line> { Branch(o.digit, o.destination) }

  function IvrMain(ivr: Ivr): seq<Line> {
    match ivr.mode
    case Hours(business, after) =>
      Block("s", NoOp, [Same(None, NoOp), Same(None, GotoIfTime("business-hours")),
                        Same(None, GotoExten("after-hours"))])
      + Branch("business-hours", business) + Branch("after-hours", after)
    case Menu(timeout, invalid) =>
      Block("s", NoOp, [Same(None, Other("Background")), Same(None, WaitExten), Same(None, GotoExten("t"))])
      + Branch("t", timeout) + Branch("i", invalid)
  }

  function IvrBody(ivr: Ivr): seq<Line> { IvrMain(ivr) + Each(OptionLines, ivr.options) }

  /** An IVR opens its own context, and nothing reopens `[ivrs]` for the next one. */
  function IvrLines(ivr: Ivr): seq<Line> {
    [Exten(ivr.slug, Goto(IvrContext(ivr.slug), "s")), Plain(""), Context(IvrContext(ivr.slug))] + IvrBody(ivr)
  }

  function RingGroupLines(g: RingGroup): seq<Line> { GroupLines(g.slug, g.strategy, g.members) }

  function QueueTail(q: Queue): seq<Line> {
    HookLines("queue", q.slug, q.policy) + [Same(None, Other("Queue"))]
    + (if q.overflow == Missing then [] else [Same(None, DestinationApp(q.overflow))]) + [Same(None, Hangup)]
  }

  function QueueLines(q: Queue): seq<Line> { Block(q.slug, NoOp, QueueTail(q)) }

  const RECORDING_ROOT := "/var/spool/asterisk/monitor"

  /** `${UNIQUEID}-${LOCAL_PBX}-${RECORDING_SOURCE}-${RECORDING_POLICY}.wav` */
  const HOOK_FILE := Joined([Variable("UNIQUEID"), Text("-"), Variable("LOCAL_PBX"), Text("-"),
                            Variable("RECORDING_SOURCE"),
                            Text("-"), Variable("RECORDING_POLICY"), Text(".wav")])

  const HOOK_TAIL: seq<Line> := [
    Same(None, GotoIf(Variable("RECORDING_ACTIVE"), Text("1"), "done")),
    Same(None, Set("RECORDING_ACTIVE", Text("1"))),
    Same(None, Set("RECORDING_SOURCE", Joined([Arg(1), Text("-"), Arg(2)]))),
    Same(None, Set("RECORDING_POLICY", Arg(3))),
    Same(None, Set("RECORDING_FILE", HOOK_FILE)),
    Same(None, SetCdr(Variable("RECORDING_FILE"))),
    Same(None, MixMonitor(Joined([Text(RECORDING_ROOT), Text("/"), Variable("RECORDING_FILE")]))),
    Same(Some("done"), Return)]

  function HookContextLines(): seq<Line> { [Context(RECORDING_HOOKS)] + Block("s", NoOp, HOOK_TAIL) }

  // ----- the file ----------------------------------------------------------------------------------------

  const GLOBALS: seq<Line> := [
    Plain("; Dialplan"), Context("globals"), Plain("LOCAL_PBX"), Plain("RECORDING_RETENTION_DAYS"), Plain("")]

  const FROM_PJSIP: seq<Line> := [
    Context("from-pjsip"), Plain("include => emergency"), Plain("include => local-extensions"),
    Plain("include => remote-extensions"), Plain("include => feature-codes"), Plain("include => voicemail"),
    Plain("include => paging"), Plain("include => outbound"), Plain("")]

  const FROM_IAX2: seq<Line> := [
    Context("from-iax2"), Plain("include => local-extensions"), Plain("include => inbound"), Plain(""),
    Context("local-extensions")]

  const INCLUDES := GLOBALS + FROM_PJSIP + FROM_IAX2

  function InboundLines(plan: Plan): seq<Line> {
    [Context("remote-extensions")] + Each(RemoteLines, plan.remotes)
    + [Context("inbound")] + Each(DidLines, plan.dids) + DefaultLines(plan.defaultDestination)
  }

  function OutboundLines(plan: Plan): seq<Line> {
    [Context("outbound")] + Each((r: Route) => RouteLines(plan.location, r), plan.routes)
  }

  function EmergencyLines(plan: Plan): seq<Line> {
    [Context("emergency")] + Each(BlockedLines, plan.blocks)
    + Each((r: Route) => RouteLines(plan.location, r), plan.emergencyRoutes)
  }

  predicate UsesExtensionDid(routes: seq<Route>) {
    exists r :: r in routes && r.source == ExtensionDid
  }

  function CallerIdContext(plan: Plan): seq<Line> {
    if UsesExtensionDid(plan.routes + plan.emergencyRoutes) then SubroutineLines(plan.location) else []
  }

  function ServiceLines(plan: Plan): seq<Line> {
    [Context("voicemail")] + VoicemailLines() + [Context("paging")] + Each(PagingLines, plan.pagingCodes)
    + [Context("feature-codes")] + Each(FeatureLines, plan.features)
  }

  function DestinationLines(plan: Plan): seq<Line> {
    [Context("ivrs")] + Each(IvrLines, plan.ivrs)
    + [Context("ring-groups")] + Each(RingGroupLines, plan.ringGroups)
    + [Context("queues")] + Each(QueueLines, plan.queues)
  }

  /** The file up to the `[outbound]` context. */
  function Opening(plan: Plan): seq<Line> {
    INCLUDES + Each(LocalLines, plan.locals) + InboundLines(plan)
  }

  function BeforeSubroutine(plan: Plan): seq<Line> {
    Opening(plan) + OutboundLines(plan) + EmergencyLines(plan)
  }

  function BeforeHooks(plan: Plan): seq<Line> {
    BeforeSubroutine(plan) + CallerIdContext(plan) + ServiceLines(plan) + DestinationLines(plan)
  }

  predicate IsHookCall(l: Line) {
    (l.Same? || l.Exten?) && l.app.Gosub? && l.app.context == RECORDING_HOOKS
  }

  /** Some line calls the recording hooks. */
  predicate CallsHooks(lines: seq<Line>) {
    exists l :: l in lines && IsHookCall(l)
  }

  /** The file: the hooks' context stands at its end if and only if some line before calls them. */
  function Conf(plan: Plan): seq<Line> {
    BeforeHooks(plan) + HookSection(plan)
  }

  function HookSection(plan: Plan): seq<Line> {
    if CallsHooks(BeforeHooks(plan)) then HookContextLines() else []
  }
}
