# PBX configuration portal: a verified model

The portal keeps the configuration of Asterisk phone systems, compiles it to Asterisk's files, ships the
files to remote hosts, and talks to an agent on each host. This project models the parts of it where many
functions have to fit together, and proves what they promise as a whole. `dafny verify dfyconfig.toml` checks
all of it.

**Live commands** (`core/live_operations.py`, `core/agent_ws.py`). `SessionCore` holds the value of what a
session's lock and queue protect. `AgentSessions` is the imperative form: the classes `Future`, `AgentSession`
and `AgentConnectionRegistry`, each method proved against `SessionCore`. `LiveProtocol` takes the same regions
apart into atomic steps, one for every lock region and every unlocked action, and lets any number of threads
interleave them in any order. `LiveInvariant`, `LiveFrame` and `LiveSteps` prove one invariant of every step,
`LiveMoves` says what a step changes, and `LiveTheorems`, `LiveEndings` and `LiveQueue` draw the properties of
whole runs from them. The model allows a little more than the code: a
call may start on any session that was ever installed, a resolver may be any thread, and a blocked queue read
may take one more message after the message loop has ended.

**The dialplan compiler** (`core/config_export.py`, `core/asterisk_config_helpers.py`,
`core/ring_group_dialplan.py`, `core/ivr_dialplan.py`). `Dialplan` is the target: lines, how they load into
extensions and priorities, and a machine with a program counter, a call stack and variables, run against an
oracle for dial outcomes, the clock and pressed keys. `ExtensionsConf` is the whole generated file as a
function of the records, `Renderer` the loops that write it, `ConfFacts`, `ConfTargets` and `FileSections` where
its extensions stand, and `CallerId`, `RingGroups`, `TrunkOrder`, `Recording`, `OutboundCalls`, `CallFlows` and
`ServiceFlows` what calls to it do. Destination, route, queue and group names appear as their slugs, dial targets as the text the generator
writes; text that only documents a line is left away.

**Deployment** (`core/deployments.py`, `core/config_archive.py`). `RemoteFs` is a file tree with the shell
commands of the scripts, and says what a script under `set -e` may leave when it stops anywhere, also inside
`rm -rf`, `mkdir -p` or `cp`; `mv` is an atomic rename. `PathText` reads paths as texts. `SwapVolumes` proves
the swap of each volume, `SwapStaging` what a badly placed staging directory does to it, `SwapOverlaps` when two
volumes do not destroy each other, and `DeploymentPaths` what the settings check lets through. `MarkerDelivery`
and `MarkerPlaces` follow the active-configuration marker from the exporter to its configured path,
`MarkerSafety` what its install may do to the trees, `Checksums` the checksum list, and `Deployments` the
database records over any sequence of attempts.

**Formats and names** (`core/agent_client.py`, `core/ami_telemetry.py`, `core/phone_csv.py`,
`core/phone_csv_import.py`, `core/audio_prompts.py`). `Frames` proves the agent's WebSocket frames octet by octet
and against a decoder written from sections 5.2 and 5.3 of RFC 6455; `AmiText`, `AmiActions` and `AmiAnswers` the
text of the Asterisk Manager Interface and the answer collected for an action; `PhoneCells`, `PhoneImport` and
`PhoneVerdicts` the phone CSV; `PromptNames` the choice of a free prompt name.

Clocks, random ids, hashes, SSH and the file system's own failures are parameters: a timeout may fire whenever
the future is incomplete, ids are fresh, a hash is any function to 64 hex digits, a runner may return any code
or throw.

Some results are that the code does not do what one might expect; each is proved, with the exact condition:

- only the first IVR of a location can be reached through `Goto(ivrs,...)`; callers of the others are hung up
  (`ConfTargets.OnlyFirstIvrHasAnEntry`, `ConfTargets.IvrReachedIffFirst`);
- an acknowledged result may still end in a timeout for its dispatcher (`LiveTheorems.AckedIsNotAnswered`): it
  is answered, whatever happens later, if and only if it had not given up waiting when the result was set
  (`LiveEndings.AnsweredIffInTime`);
- a volume is swapped over an active tree if and only if its settings path does not end in a slash or in `/.`
  (`SwapVolumes.SwapsIffPlain`); the settings check compares normalised paths and does not see such an ending
  (`DeploymentPaths.SlashPassesAndFails`);
- a completed swap of two volumes keeps both old trees as backups and both new ones active, on every file
  system, if and only if no place of one stands at or in a place of the other (`SwapOverlaps.SwapsBothIffApart`).
  There are four ways to overlap (`SwapOverlaps.FourWaysToOverlap`), each with what it loses
  (`SwapOverlaps.SecondInsideFirst`, `FirstInsideSecond`, `SecondInsideFirstBackup`, `FirstInsideSecondBackup`),
  and but for two equal paths the settings check lets each of them through under every allowed directory
  (`DeploymentPaths.OverlapPassesAndLoses`);
- the swap protects one run: with the new tree staged again, a stop may leave neither an active tree nor a
  backup if and only if there was no active tree when the run began, as after a stop between the two moves
  (`SwapVolumes.SecondStopLosesTheOldTree`);
- a volume is swapped if and only if its path ends plainly and the staged tree is neither at, in nor above the
  active place or the backup (`SwapStaging.SwapsIffPlainAndAside`); the settings check lets a staging path inside
  an active one through, where every attempt fails and the second one in a row deletes the old tree
  (`DeploymentPaths.StagingInsidePassesAndLoses`);
- installing the marker may delete an old tree that the swap has just set aside: some stop of some run does, if
  and only if source and target of the marker are not one place and the target, or its `.previous`, stands at, in
  or above a volume's backup (`MarkerSafety.OldTreesKeptIffMarkerIsAway`); nothing compares the marker's path with
  the deployment paths, and a marker at the active path itself is an input that does
  (`MarkerSafety.MarkerAtActivePath`);
- the scripts of a bundle are never installed (`MarkerDelivery.ScriptsAreNotInstalled`);
- a source other than the extension DID that selects an empty caller ID leaves the caller's own number in
  place (`CallerId.CallerIdIsCompiledRight`, by way of `Presented`).

## Model

| member | source | states |
|---|---|---|
| `LiveSteps.StepKeeps` | core/live_operations.py:533-582 | every atomic step of every call keeps the invariant on custody of futures, queues, sessions and registry |
| `LiveSteps.RunKeeps` | core/live_operations.py:479-604 | so does every run of any threads in any order |
| `LiveTheorems.CompletedAtMostOnce` | core/live_operations.py:564-582 | in every run a future is completed at most once and `resolve_result` returns True at most once for an id |
| `LiveTheorems.CompletersFindItOpen` | core/live_operations.py:569-581 | `set_result` and `set_exception` always find the future incomplete |
| `LiveTheorems.SoleOwner` | core/live_operations.py:565-577 | a popped future belongs to one thread only and is pending nowhere |
| `LiveTheorems.NoFutureLost` | core/live_operations.py:541-577 | registered = pending + removed by resolvers + removed by close + removed by timeouts, at every step |
| `LiveTheorems.DispatchEnds` | core/live_operations.py:533-556 | a dispatch is still waiting, or ended as its own future did: with the delivered result, the disconnect, or its timeout |
| `LiveTheorems.AckedIsNotAnswered` | core/live_operations.py:548-570 | a resolver that has popped a future gets True; the dispatcher returns the result if the resolver moves first and times out if the wait expires first |
| `LiveTheorems.RaceIsReached` | core/live_operations.py:533-570 | for any location, ids and payload a run of ten actions leads to where those two orders part |
| `LiveEndings.AnsweredIffInTime` | core/live_operations.py:548-570 | once a result is set, for every continuation the dispatcher is answered, or on its way to it, if and only if it was still before or in its wait at that moment; otherwise it times out |
| `LiveTheorems.ClosedForGood` | core/live_operations.py:541-577 | after the locked part of `close` the pending map stays empty for ever |
| `LiveTheorems.OneSentinel` | core/live_operations.py:572-582 | in every run, at every moment: no sentinel is enqueued on an open session, and never a second one |
| `LiveQueue.CloseQueuesTheSentinel` | core/live_operations.py:572-582 | in every run, while nobody stands inside `close`, a closed session has had exactly one sentinel queued and an open one none |
| `LiveQueue.DispatchIsQueuedOnce` | core/live_operations.py:533-547 | every dispatched command is queued exactly once on its session, unless its dispatcher has still to queue it |
| `LiveQueue.CloseDrains` | core/agent_ws.py:175-210 | from every run in which a session is closed and its loop goes on, the loop's own dequeues and sends alone send all that was queued before the sentinel, take the sentinel and end the loop |
| `LiveTheorems.BehindSentinel` | core/live_operations.py:541-547 | a message behind the sentinel belongs to a future that is done or owned by a resolver in flight |
| `LiveTheorems.CloseStrandsNobody` | core/live_operations.py:572-582 | once a session is closed and nobody is about to complete its futures, every waiting dispatcher can return |
| `LiveTheorems.OwnerCanFinish` | core/live_operations.py:564-582 | the owner of an incomplete future of a closed session completes it in its next step |
| `LiveEndings.CloseReleases` | core/live_operations.py:572-582 | from every run with a closed session and a dispatcher waiting on it, a continuation of at most two steps ends the wait |
| `LiveTheorems.SessionsDoNotMix` | core/live_operations.py:644-649 | a result completes only futures dispatched on the session it arrived on, even one displaced before the pop |
| `LiveTheorems.SentInOrder` | core/agent_ws.py:175-210 | what was sent is a prefix of what was enqueued before the sentinel, with at most one message dequeued and not sent |
| `LiveTheorems.OpenSessionsAreKept` | core/live_operations.py:590-604 | every open session is registered, about to be installed, or owed a `close` |
| `LiveTheorems.EntryLeaves` | core/live_operations.py:590-604 | a registry entry goes only when a newer session replaces it or its own session is unregistered |
| `LiveTheorems.DisplacedForGood` | core/live_operations.py:590-604 | a replaced or unregistered session is never the registered one again |
| `LiveQueue.DisplacedResultIsIgnored` | core/live_operations.py:644-649 | a resolver on a displaced session that has still to look up the registry answers False, whatever runs in between |
| `LiveQueue.UnregisteredForGood` | core/live_operations.py:599-604 | after the locked part of `unregister` its session is never the registered one again |
| `LiveEndings.CallsGoOn` | core/live_operations.py:533-604 | in every run a call that is neither done nor waiting for its own future has a step it can take |
| `LiveEndings.RefusedIffClosed` | core/live_operations.py:541-545 | a dispatch is refused if and only if its session is closed when it takes the lock |
| `AgentSessions.AgentSession.EnlistFuture` | core/live_operations.py:541-545 | a closed session refuses; otherwise a new future enters the pending map |
| `AgentSessions.AgentSession.DropExpired` | core/live_operations.py:550-552 | the timed-out dispatcher's own pop |
| `AgentSessions.AgentSession.PutOutbound` | core/live_operations.py:547 | the message goes to the end of the queue |
| `AgentSessions.AgentSession.TakeOutbound` | core/live_operations.py:558-562 | the first message comes off the queue, None for the sentinel |
| `AgentSessions.AgentSession.ResolveResult` | core/live_operations.py:564-570 | True exactly for a pending id, whose future alone gets the result |
| `AgentSessions.AgentSession.Close` | core/live_operations.py:572-582 | every pending future fails, one sentinel is queued, a second close does nothing |
| `AgentSessions.AgentConnectionRegistry.Register` | core/live_operations.py:590-597 | the new session takes the entry, the displaced one is closed and its futures failed |
| `AgentSessions.AgentConnectionRegistry.Unregister` | core/live_operations.py:599-604 | the session is closed; only its own entry is removed |
| `AgentSessions.AgentConnectionRegistry.ResolveResult` | core/live_operations.py:644-649 | accepted exactly on the registered session and for an id pending there |
| `CallerId.CallerIdIsCompiledRight` | core/config_export.py:2256-2298 | running the compiled caller ID lines, generated subroutine included, presents what the Python reference selects for the calling extension |
| `CallerId.SpecialResolves` | core/config_export.py:1288-1305 | the pairs compiled into the subroutine hold exactly what the reference selects beyond the location default |
| `CallerId.FirstDidIs` | core/config_export.py:1295-1299 | no answer exactly when no DID is active at the location; else the number of an active one there, with no active one there below it |
| `CallerId.PresentedIs` | core/config_export.py:1288-1305 | what a route presents, from the records alone: the emergency or custom number; for the calling extension its least active DID at the location, or its own caller ID; else the location default |
| `CallerId.SubroutineLoads` | core/config_export.py:2268-2285 | the generated context loads to the branches, the return and the setters in that order |
| `ConfFacts.SubroutineInFile` | core/config_export.py:2249-2253 | the subroutine is in the file, complete, exactly when some active route needs it |
| `ConfFacts.HooksLoad` | core/config_export.py:2005-2007 | the recording hooks' context holds its one extension if some line calls it, and nothing otherwise |
| `Recording.HooksEmittedIffCalled` | core/config_export.py:1893-2008 | the context is opened exactly once if some emitted line calls it, never otherwise |
| `Recording.EveryGosubResolves` | core/config_export.py:2256-2262 | every `Gosub` of the file finds the extension it names |
| `Recording.TickKeeps` | core/asterisk_config_helpers.py:89-106 | every priority of the generated file keeps the recording invariant |
| `Recording.MonitoredOnce` | core/asterisk_config_helpers.py:70-106 | for any entry point, oracle and length of run, MixMonitor starts at most once, and exactly once, for the first source, if any source asked; only extensions, routes and queues with a recording policy ask |
| `Renderer.RenderExtensionsConf` | core/config_export.py:1889-2008 | the rendering loops, with the flag they carry, write exactly the file `Conf` describes |
| `Renderer.LineBuffer.AppendRoute` | core/config_export.py:2147-2161 | appends the route's lines and answers whether they call the hooks |
| `Renderer.LineBuffer.AppendDestinations` | core/config_export.py:2187-2218 | appends the destination contexts and answers whether a queue calls the hooks |
| `Renderer.LineBuffer.AppendSubroutine` | core/config_export.py:2268-2285 | the two loops write the subroutine's context |
| `Renderer.FlagIsExact` | core/config_export.py:1893-2005 | the carried flag is true exactly when a line before the hooks calls them |
| `Renderer.RenderGroup` | core/ring_group_dialplan.py:14-33 | the hunt loop writes the group's lines |
| `ConfTargets.RouteInFile` | core/config_export.py:1966-1968 | a route with a pattern of its own is found in `[outbound]`, complete |
| `ConfTargets.OnlyFirstIvrHasAnEntry` | core/config_export.py:2189-2197 | `[ivrs]` holds an entry for the first IVR and for no other |
| `ConfTargets.IvrReachedIffFirst` | core/ivr_dialplan.py:61-65 | a call sent to an IVR enters its context if and only if its name is the first IVR's, and is hung up otherwise |
| `ConfTargets.RingGroupInFile` | core/config_export.py:2199-2201 | a ring group with a name of its own is found in `[ring-groups]`, complete |
| `ConfTargets.HuntGroupInFile` | core/ring_group_dialplan.py:21-33 | a call to a hunt group of the file dials its members in order up to the first that answers |
| `ConfTargets.CheckedGroupInFile` | core/ring_group_dialplan.py:21-77 | with the members the payload check answers, such a call tries the payload's entries by priority and then extension, up to the first that answers |
| `RingGroups.ValidatedMembers` | core/ring_group_dialplan.py:51-77 | accepts exactly the non-empty lists of well-formed members sorted by priority, then extension, and answers with them cleaned, or else with the first thing wrong |
| `RingGroups.HuntGroup` | core/ring_group_dialplan.py:27-32 | the emitted program dials exactly the members up to and including the first ANSWER, then hangs up |
| `RingGroups.HuntedIsAPrefix` | core/ring_group_dialplan.py:27-32 | the members tried are the first ones, all but the last unanswered, and the last answered unless all were tried |
| `RingGroups.RingAllGroup` | core/ring_group_dialplan.py:23-26 | one attempt to all members at once, then the hangup |
| `RingGroups.RingAllDialsEverybody` | core/ring_group_dialplan.py:23-26 | that attempt, split at its ampersands, is the PJSIP target of every member, in order |
| `TrunkOrder.TrunksAreSorted` | core/asterisk_config_helpers.py:52-54 | exactly the active links, by priority, then trunk name, ties in their given order |
| `TrunkOrder.TrunksByPriority` | core/asterisk_config_helpers.py:52-54 | of two trunks in a row tried, the earlier has the smaller priority, or the same and no greater name |
| `TrunkOrder.TrunksAreActive` | core/asterisk_config_helpers.py:52-54 | the trunks tried are the active ones of the route and no others |
| `OutboundCalls.AttemptedIsAPrefix` | core/config_export.py:2158-2160 | the trunks tried are the first ones: the call came back from all but the last, and stayed with the last unless all were tried |
| `OutboundCalls.OutboundCall` | core/config_export.py:2147-2161 | a call to an outbound route of the file presents the reference's caller ID, tries the active trunks in order until one takes it, is hung up, and is recorded once if it or an earlier line asked |
| `OutboundCalls.RoutedCallPresents` | core/config_export.py:2147-2161 | such a call runs to its end presenting the number that those records name |
| `OutboundCalls.RoutedCallAsks` | core/config_export.py:2153-2161 | and asks for a recording exactly when its policy is `always` or `on_demand` and one of its trunks is active |
| `FileSections.FileIs` | core/config_export.py:1889-2008 | the whole file as its contexts in order, with what each context includes |
| `CallFlows.LocalCall` | core/config_export.py:1916-1930 | a call to a local extension of the file asks for the recording its policy wants, rings exactly its phone, and is hung up |
| `CallFlows.RemoteCall` | core/config_export.py:1932-1944 | a call to an extension of another site rings exactly its target and asks for no recording |
| `CallFlows.DidCall` | core/config_export.py:1946-1954 | a call to an inbound number goes to the first priority of its destination, or is hung up if it has none |
| `CallFlows.DefaultCall` | core/config_export.py:1955-1962 | a call to no number of its own goes to the default destination, or is hung up if there is none |
| `CallFlows.InboundRings` | core/config_export.py:1916-1954 | two contexts together: a call to a number that belongs to an extension rings that extension's phone |
| `CallFlows.QueueCall` | core/config_export.py:2203-2217 | a call to a queue asks for the recording its policy wants and, back from the queue, goes where the queue overflows to, or is hung up |
| `ServiceFlows.EmergencyCall` | core/config_export.py:1979-1980 | a call to an emergency route presents, tries and asks for what one to an outbound route does |
| `ServiceFlows.BlockedCall` | core/config_export.py:1969-1978 | an extension blocked from an emergency pattern is hung up with nothing dialed |
| `ServiceFlows.PagingCall` | core/config_export.py:1988-2000 | a call to a paging code pages and is hung up |
| `ServiceFlows.FeatureCall` | core/config_export.py:2164-2184 | a call to a feature code runs its service, goes to the paging context, or goes to its destination, and is otherwise hung up |
| `ServiceFlows.IvrInFile` | core/ivr_dialplan.py:61-118 | an IVR's own context holds its parts, wherever the IVR stands in the list, up to the name of the next IVR |
| `ServiceFlows.HoursCall` | core/ivr_dialplan.py:68-90 | inside an IVR with business hours a call goes to the one destination while they last and to the other after |
| `ServiceFlows.MenuCall` | core/ivr_dialplan.py:91-118 | inside a menu a call goes where the pressed key is set to, to the timeout's destination for no key, and to the one for invalid keys for any other |
| `SwapVolumes.VolumeLeaves` | core/deployments.py:558-569 | wherever a volume's four commands stop, its trees are in one of three phases |
| `SwapVolumes.VolumeRuns` | core/deployments.py:558-569 | they succeed exactly when the parent directory can be made, and then swap the trees |
| `SwapVolumes.CrashSafe` | core/deployments.py:551-581 | after any stop of the script each old tree is at exactly one of active and `.previous`, each new one at exactly one of staged and active, the second volume untouched until the first is swapped |
| `SwapVolumes.FullRun` | core/deployments.py:551-581 | a full run leaves the new trees active and the old ones at `.previous` |
| `SwapVolumes.SwapCompletes` | core/deployments.py:551-569 | with makeable directories and staged trees the swap goes through |
| `SwapVolumes.SwapsIffPlain` | core/deployments.py:558-569 | over an active tree it goes through if and only if the path does not end in a slash or `/.` |
| `SwapVolumes.NestedBackupFails` | core/deployments.py:561-567 | otherwise it fails and leaves the old tree active and the new one staged |
| `SwapVolumes.InnerVolumeIsCarriedOff` | core/deployments.py:558-569 | the first swap moves all that stands below its active path away with its old tree: a second volume there is found in the first backup, and at its place what the new tree holds |
| `SwapVolumes.SecondStopLosesTheOldTree` | core/deployments.py:558-569 | some stop of a volume's commands leaves neither an active tree nor a backup if and only if there was no active tree |
| `SwapOverlaps.SwapsBothIffApart` | core/deployments.py:551-569 | every completed swap keeps both old trees and puts both new ones in place if and only if no place of one volume stands at or in a place of the other |
| `SwapOverlaps.FourWaysToOverlap` | core/deployments.py:359-366 | sound volumes overlap exactly when one active path is at or in the other, or at or in the other's backup |
| `SwapOverlaps.SecondInsideFirst` | core/deployments.py:558-569 | second path in the first: on every file system what the second backs up is a piece of the new first tree |
| `SwapOverlaps.FirstInsideSecond` | core/deployments.py:558-569 | first path in the second: the new first tree ends in the second's backup |
| `SwapOverlaps.SecondInsideFirstBackup` | core/deployments.py:558-569 | second path in the first's backup: its live tree is deleted, and the old first tree is what it backs up |
| `SwapOverlaps.FirstInsideSecondBackup` | core/deployments.py:558-569 | first path in the second's backup: the new first tree is deleted, and the old second tree stands there |
| `DeploymentPaths.SlashPassesAndFails` | core/deployments.py:639-653 | for all accepted paths a slash, or a slash and a dot, behind either active path is accepted too, and that volume then never replaces an active tree |
| `DeploymentPaths.OverlapPassesAndLoses` | core/deployments.py:359-366 | under every accepted directory overlapping active paths are accepted, whichever is which, and some completed swap of them loses a tree |
| `SwapStaging.SwapsIffPlainAndAside` | core/deployments.py:558-569 | over an active tree, on every file system, the new tree becomes active and the old one its backup if and only if the path ends plainly and the staged tree is unrelated to the active place and the backup |
| `SwapStaging.StagingInsideFails` | core/deployments.py:558-569 | with the staged tree at, in or above the active one the commands fail, leaving nothing active and the old tree as the backup |
| `SwapStaging.SecondAttemptDeletesTheOldTree` | core/deployments.py:525-534 | with staging inside the active path the next attempt recreates that path as it prepares staging, and then deletes the only copy of the old tree |
| `DeploymentPaths.StagingInsidePassesAndLoses` | core/deployments.py:359-366 | for every accepted active path a staging path below it is accepted, and two attempts in a row delete the old tree |
| `DeploymentPaths.DefaultRootsPass` | core/deployments.py:29-37 | with the default roots, `/srv/pbx/asterisk/` is accepted, and so is `/srv/pbx/x` with `/srv/pbx/x.previous` |
| `DeploymentPaths.ParentIsRefused` | core/deployments.py:639-644 | no path with `..` as a component is accepted |
| `DeploymentPaths.OutsideIsRefused` | core/deployments.py:639-653 | nor is a path without a leading slash, the root, or a path at and below none of the roots |
| `DeploymentPaths.SamePathIsRefused` | core/deployments.py:359-366 | two of the three paths that differ only in a slash, or a slash and a dot, at their end are refused |
| `DeploymentPaths.DoubleSlashIsElsewhere` | core/deployments.py:639-653 | a path behind two slashes is under no root with one, except the root that is only slashes |
| `PathText.PreviousStands` | core/deployments.py:561 | where `<path>.previous` stands: beside the path, or inside it after a trailing slash |
| `RemoteFs.ScriptSpares` | core/deployments.py:556-581 | a place no command of a script writes at, above or below is the same wherever the script stops |
| `MarkerDelivery.PlainSettingsLayOut` | core/deployments.py:348-366 | settings meet the layout the swap needs if and only if neither active path ends in a slash or `/.` and nothing overlaps, the staging directory included |
| `MarkerDelivery.BundlePathIsNames` | core/config_archive.py:144-148 | a mapped marker path consists of proper names |
| `MarkerDelivery.AsteriskMarkerMaps` | core/config_archive.py:33-39 | every text below `/etc/asterisk/` maps below `asterisk/` |
| `MarkerDelivery.DoubleSlashMarkerMaps` | core/config_archive.py:33-38 | with a second slash in front the same text is mirrored below `active-config/`, where the swap does not carry it |
| `MarkerDelivery.OtherMarkerMaps` | core/config_archive.py:33-38 | and so is every absolute text elsewhere |
| `MarkerDelivery.ManifestRoundTrip` | core/deployments.py:592-604 | the bundle path written into the manifest reads back as itself |
| `MarkerDelivery.Extract` | core/deployments.py:285-320 | the extraction loop builds the bundle directory or fails on a path conflict |
| `MarkerDelivery.BundleHolds` | core/deployments.py:308-319 | every deployable member is in the bundle with the content the archive answers for its name |
| `MarkerDelivery.LastMemberIsHeld` | core/deployments.py:296-319 | of members with one name below `asterisk/`, `tftp/` or `scripts/`, or with the marker's, the bundle holds the last one's content |
| `MarkerDelivery.InstallRuns` | core/deployments.py:615-627 | the install commands go through exactly when the directory can be made and the copy still finds a file, which is then at the target, with what stood there as its backup |
| `MarkerPlaces.MarkerReachesItsPath` | core/deployments.py:551-627 | export mapping, archive, extraction, upload, swap and install, from the texts, the archive and the file system before the run: with source and target one place the content always arrives; else the script goes through if and only if no file will be in the way of the target's directory and the copy will find a file, which is then at the target; that file is the marker's, and only the directory decides, when the target is out of the swap's way, or in an active tree and not above the source |
| `MarkerSafety.DeploymentIsCrashSafe` | core/deployments.py:551-581 | wherever the script stops, installs included and whatever the marker: each new tree is whole at its staged place, or active and whole but at, above or below the target and its backup; each old tree is whole at one of its places if the marker stays away from the backups; a volume whose places the marker does not touch is in a phase of the swap |
| `MarkerSafety.OldTreesKeptIffMarkerIsAway` | core/deployments.py:570-627 | for every bundle, all file systems and all stops keep both old trees if and only if the marker is not absolute, or source and target are one place, or neither the target nor its own `.previous` stands at, in or above the backup of a volume |
| `MarkerSafety.MarkerAtActivePath` | core/deployments.py:615-627 | with the asterisk path itself as the marker's path, and not under `/etc/asterisk`, the script always goes through and leaves a file for the active tree and the new tree for the old one's only copy |
| `MarkerDelivery.ScriptsAreNotInstalled` | core/deployments.py:141-143 | no script is uploaded, so the commands that install it change nothing |
| `Deployments.Portal.RunStep` | core/deployments.py:369-378 | a step is recorded with whatever code it returned, unless the runner throws |
| `Deployments.Portal.RunSteps` | core/deployments.py:249-268 | the five steps in order until one stops the attempt |
| `Deployments.StepsAreInPlace` | core/deployments.py:249-268 | over any attempts, in every record: reload stands directly behind a swap that returned 0, that behind a verification that did, that behind an upload that did, that behind a preparation that did; SUCCESS if and only if all five are there with 0 |
| `Deployments.Portal.MarkSuccess` | core/deployments.py:381-411 | version, location and record are marked, nothing else |
| `Deployments.Portal.MarkFailed` | core/deployments.py:414-434 | record and location are marked failed, versions are not touched |
| `Deployments.Portal.Deploy` | core/deployments.py:211-282 | an attempt changes the tables as `After` says and raises its error |
| `Deployments.AttemptEnds` | core/deployments.py:237-282 | an attempt succeeds if and only if it is confirmed, its target valid, its archive good and all five steps return 0; otherwise its record carries the error of the first of these that fails |
| `Deployments.EveryRecordIsSound` | core/deployments.py:237-282 | over any attempts: steps are the first of the five, only the last nonzero; SUCCESS if and only if all five returned 0; reload FAILED if and only if a nonzero reload step was recorded; one audit entry each, DENIED exactly when unconfirmed |
| `Deployments.VersionsFollow` | core/models.py:740-746 | a version is marked by its last successful record and by nothing else |
| `Deployments.SitesFollow` | core/deployments.py:391-434 | a location shows its last record's status and the time of its last success |
| `Deployments.FailuresMarkNothing` | core/deployments.py:414-434 | taking all failed attempts out of any sequence leaves every version's mark and every location's last deployment time as they are |
| `Checksums.VerifyArchiveChecksums` | core/deployments.py:485-505 | accepts exactly the archives whose listed members all exist with their listed digests, and else reports the first line that fails |
| `Checksums.LinesAre` | core/deployments.py:487 | a text breaks into lines at each of ten characters, a carriage return and line feed together counting once |
| `Checksums.ListedLine` | core/deployments.py:491-505 | a line with a digest and a path, however spaced: missing member if no entry has the path, mismatch if the last one that has it has another digest, and else no problem |
| `Checksums.BareLine` | core/deployments.py:494-497 | a line of one word is an invalid line |
| `Checksums.ExportAccepted` | core/config_archive.py:109-111 | an exported archive is accepted if and only if entries of the same path have the same digest |
| `Checksums.DistinctExportAccepted` | core/config_export.py:472-479 | with distinct paths every export is accepted |
| `Checksums.TamperingIsRefused` | core/deployments.py:500-505 | a listed member with another digest gets the archive refused |
| `Frames.WriteFrame` | core/agent_client.py:392-405 | header, mask and masked payload, whose octets `WrittenOctets` gives |
| `Frames.WrittenOctets` | core/agent_client.py:392-405 | every octet written: final bit and opcode, mask bit and length class, the length in network order, the mask, and payload octets each of whose bits differs from the payload's exactly where the mask's bit is set |
| `Frames.XorIsExclusiveOr` | core/agent_client.py:403 | a bit of the result is set if and only if the two bits differ |
| `Frames.FrameRoundTrip` | core/agent_client.py:392-405 | the RFC 6455 decoder recovers opcode and payload as one final masked frame in minimal form and leaves what follows, exactly while the length is below 2^63 |
| `Frames.ReadTextFrame` | core/agent_client.py:408-419 | takes exactly one unmasked frame of any length class and gives the payload of a text frame |
| `AmiText.ParseAmiMessages` | core/ami_telemetry.py:188-212 | the parsing loop computes the fold over normalised lines |
| `AmiText.SpacedField` | core/ami_telemetry.py:199-211 | a line is cut at its first colon, and white space around key and value does not count |
| `AmiText.OtherLines` | core/ami_telemetry.py:191-198 | a line without a colon adds nothing; an empty one ends a message that has begun |
| `AmiText.ParseSplits` | core/ami_telemetry.py:188-212 | cutting a stream behind a blank line does not change what it parses to |
| `AmiText.StreamParses` | core/ami_telemetry.py:109-114 | parsing a stream at once is parsing its blank-line terminated pieces |
| `AmiText.ActionReadsBack` | core/ami_telemetry.py:88-92 | the text `action` writes parses to one message with its fields |
| `AmiText.MergedHolds` | core/ami_telemetry.py:199-211 | every key holds exactly the values written for it, in order |
| `AmiText.ReadsOneMessage` | core/ami_telemetry.py:112 | reading up to the blank line takes exactly one printed message, however much follows |
| `AmiActions.ActionText` | core/ami_telemetry.py:88-92 | what the line loop writes |
| `AmiActions.CollectAnswer` | core/ami_telemetry.py:95-107 | the loop answers from the stream's own messages and consumes no more than the one that decides |
| `AmiActions.AnswerIs` | core/ami_telemetry.py:95-107 | the answer is the own messages up to the first that completes, or the first error before it, or none yet |
| `AmiAnswers.FirstDecides` | core/ami_telemetry.py:95-107 | over texts: the first own message with Response "Error" in any case refuses with its Message, or the default text; the first own one that ends the action collects it and the own ones before it, and no others |
| `AmiAnswers.WaitsUntilDecided` | core/ami_telemetry.py:95-107 | as long as no such message has come there is no answer |
| `AmiAnswers.OwnAreCounting` | core/ami_telemetry.py:98-99 | messages without an ActionID and with the own one count, those with another do not |
| `AmiActions.ForeignMessagesDoNotMatter` | core/ami_telemetry.py:98-99 | inserting or deleting foreign messages changes neither result nor error |
| `AmiActions.AnswersDoNotMix` | core/ami_telemetry.py:98-99 | no answer holds a message of another action |
| `PhoneCells.ParseLineAppearances` | core/phone_csv_import.py:404-428 | the loop's plans and problems |
| `PhoneCells.LineAppearancesRoundTrip` | core/phone_csv.py:224-228 | printed line appearances parse to themselves without a problem |
| `PhoneCells.ParseSpeedDials` | core/phone_csv_import.py:431-446 | the loop's plans and problems |
| `PhoneCells.SpeedDialsRoundTrip` | core/phone_csv.py:231-235 | printed speed dials parse to themselves without a problem |
| `PhoneCells.PositiveReadsBack` | core/phone_csv_import.py:465-478 | a positive number printed parses to itself |
| `PhoneVerdicts.UnderscoresAreTaken` | core/phone_csv_import.py:465-478 | single underscores between digits are taken and change no value; leading, trailing and double ones are no number |
| `PhoneVerdicts.NotPositiveIsRefused` | core/phone_csv_import.py:475-477 | zero and every negative number are refused |
| `PhoneVerdicts.OtherTextIsRefused` | core/phone_csv_import.py:470-474 | so is any text with a character that is no digit, underscore or leading sign |
| `PhoneVerdicts.LinesVerdict` | core/phone_csv_import.py:404-428 | a line appearance cell has no problem if and only if every entry has a positive new line index and a known extension; its plans are then the entries in order |
| `PhoneVerdicts.DialsVerdict` | core/phone_csv_import.py:431-446 | a speed dial cell has no problem if and only if every entry has all three parts and a positive new position; its plans are then the entries in order |
| `PhoneVerdicts.EntriesAreShown` | core/phone_csv_import.py:449-450 | the entries of a cell are its texts between bars, stripped, without the blank ones |
| `PhoneVerdicts.PartsAre` | core/phone_csv_import.py:408 | an entry is cut at its first two colons only |
| `PhoneImport.ImportPhones` | core/phone_csv_import.py:123-189 | the row loop's plans and errors |
| `PhoneImport.EachRowOnce` | core/phone_csv_import.py:139-187 | every data row gives exactly one plan or one error under its number, a plan exactly when nothing is wrong, an address of any earlier row counting as wrong |
| `PhoneVerdicts.RowVerdict` | core/phone_csv_import.py:139-187 | a row becomes a plan if and only if, from its cells: its location is known, its address names a MAC no earlier row names, its model is allowed, its flag is readable and both lists are good |
| `PhoneVerdicts.PlanSays` | core/phone_csv_import.py:153-187 | every field of that plan, with the existing phone's model and flag where the cell is empty |
| `PhoneVerdicts.MacIsNamed` | core/phone_csv_import.py:147 | which texts name which address: an optional SEP in front, separators anywhere |
| `PhoneImport.AcceptedMacsAreDistinct` | core/phone_csv_import.py:147-151 | accepted MAC addresses are valid and distinct, and results come in row order |
| `PromptNames.UniqueName` | core/audio_prompts.py:126-131 | the loop ends with the base name or the first free suffix, found within one more try than names are taken |
| `PromptNames.BaseNameIs` | core/audio_prompts.py:123-124 | the base name is the words of the raw name, in whatever gaps, with one blank between them, cut at 120 characters, or the default if there are none |
| `PromptNames.CandidateKeepsBase` | core/audio_prompts.py:127-129 | a candidate is the suffix behind the base, of which nothing is cut off unless the name is 120 characters long |
| `PromptNames.CandidatesDiffer` | core/audio_prompts.py:127-129 | different suffixes give different names, whatever is cut off the base |
| `PromptNames.UniqueNameFits` | core/audio_prompts.py:127-129 | a chosen name has at most 120 characters, as its suffix text fits as long as fewer than 10^119 names are taken |
| `PromptNames.UniquePromptName` | core/audio_prompts.py:122-131 | the base name if it is free, else the first free suffix of it, of at most 120 characters unless some 10^119 names are taken |

## Left out

- `AgentSession` results that are not dictionaries: the type check on a returned result is not modelled.
- The two-sided waiting of the WebSocket message loop: the inbound side appears as resolver calls on a session, reports of active configuration and telemetry not at all.
- OpenSessionsAreKept: a call that raises midway, such as `register` on a full memory, is not modelled.
- `include` and pattern matching: a call starts at a named extension of a context; how Asterisk picks it from a dialled number is its own.
- Variable inheritance: the leading `__` of the recording variables, which hands them to child channels, is not modelled; one channel is followed.
- Destinations of inactive extensions, queues and groups: the generator does not check them, and no claim is made that each `Goto` resolves.
- Blocked emergency patterns: Asterisk's matching of the caller in `pattern/extension` is part of how an extension is picked, so a blocked call starts there.
- ServiceFlows.FeatureCall: the paging prefix sends on what was dialed behind the code; a call starts at the code itself, so that is nothing, and an empty extension is taken as it stands. Which members are paged is not modelled.
- RingGroups.ValidatedMembers: the checks of name, strategy and timeout around it are not modelled; each settles one field.
- Files of the export other than `extensions.conf`, and byte-exact dialplan text.
- Permissions, owners, symbolic links and disk-full states of the remote file system; `mv` across file systems.
- Path components `..`, which the settings check and the bundle check refuse.
- JSON and UTF-8 coding, ZIP compression and SHA-256: texts, members and digests are used as they are.
- DeploymentPaths.Checked: the other fields of the settings check, each only tested for being there; the allowed roots come normalised. The script uses the texts with any white space around them that the check strips; the results are about texts without it.
- MarkerPlaces.MarkerReachesItsPath: marker settings of only white space, which the export replaces by its default and the deployment refuses.
- Deployments.Portal.Deploy: failures of the database and of the audit log, captured output and the operator's name.
- Frames.ReadTextFrame: the FIN bit, which the reader ignores, and UTF-8 decoding.
- AmiActions.CollectAnswer: lower-casing outside ASCII; the timeout is the end of the stream.
- AMI lists of phones, trunks, calls and queues: each parser picks fields of one message.
- PhoneCells.PositiveReadsBack: digits outside ASCII and Python's limit on very long numerals.
- PhoneImport.ImportPhones: reading the CSV text and its header row; upper- and lower-casing outside ASCII.
- The DID and speed dial imports, which repeat the phone import's shape with other fields.
- PromptNames.UniquePromptName: a name taken by another upload between the check and the save.
