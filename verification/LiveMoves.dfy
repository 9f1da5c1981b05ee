/** What a step of one thread leaves alone: the other threads, what sessions never lose, and, but for
    installing and unregistering, the registry. */
module LiveMoves {
  import opened SessionCore
  import opened LiveProtocol

  /** What a session never loses. */
  predicate SessionStays(a: Session, b: Session) {
    b.location == a.location && (a.installed ==> b.installed) && (a.core.closed ==> b.core.closed)
  }

  ghost predicate SessionsStay(st: State, st': State) {
    forall x | x in st.sessions :: x in st'.sessions && SessionStays(st.sessions[x], st'.sessions[x])
  }

  /** Only thread `t` moved. */
  predicate OnlyMoves(st: State, st': State, t: ThreadId) {
    t in st'.threads && st'.threads == st.threads[t := st'.threads[t]]
  }

  ghost predicate Quiet(st: State, st': State, t: ThreadId) {
    OnlyMoves(st, st', t) && st'.registry == st.registry && SessionsStay(st, st')
  }

  lemma EnlistIsQuiet(st: State, t: ThreadId, s: SessionId, id: CommandId)
    requires t in st.threads
    ensures Quiet(st, StepEnlist(st, t, s, id), t)
  {
  }

  lemma PutIsQuiet(st: State, t: ThreadId, s: SessionId, id: CommandId)
    requires t in st.threads
    ensures Quiet(st, StepPut(st, t, s, id), t)
  {
  }

  lemma DropIsQuiet(st: State, t: ThreadId, s: SessionId, id: CommandId)
    requires t in st.threads
    ensures Quiet(st, StepDrop(st, t, s, id), t)
  {
  }

  lemma PopIsQuiet(st: State, t: ThreadId, s: SessionId, id: CommandId, r: Payload)
    requires t in st.threads
    ensures Quiet(st, StepPop(st, t, s, id, r), t)
  {
  }

  lemma SetIsQuiet(st: State, t: ThreadId, s: SessionId, id: CommandId, r: Payload)
    requires t in st.threads
    ensures Quiet(st, StepSet(st, t, s, id, r), t)
  {
  }

  lemma NewIsQuiet(st: State, t: ThreadId, loc: LocationId, s: SessionId)
    requires t in st.threads
    ensures Quiet(st, StepNew(st, t, loc, s), t)
  {
  }

  lemma CloseIsQuiet(st: State, t: ThreadId, s: SessionId)
    requires t in st.threads
    ensures Quiet(st, StepClose(st, t, s), t)
  {
  }

  lemma FailIsQuiet(st: State, t: ThreadId, s: SessionId, rest: set<CommandId>, id: CommandId)
    requires t in st.threads
    ensures Quiet(st, StepFail(st, t, s, rest, id), t)
  {
  }

  lemma LookIsQuiet(st: State, t: ThreadId, choice: nat)
    requires t in st.threads
    requires var pc := st.threads[t]; pc.DispatchLookup? || pc.DispatchWait? || pc.ResolveCheck? || pc.Done?
    ensures Quiet(st, StepThread(st, t, choice), t)
  {
  }

  /** Every step but those two is quiet. */
  lemma StepIsQuiet(st: State, t: ThreadId, choice: nat)
    requires t in st.threads && !st.threads[t].RegisterInstall? && !st.threads[t].UnregisterLock?
    ensures Quiet(st, StepThread(st, t, choice), t)
  {
    match st.threads[t]
    case DispatchEnlist(s) => EnlistIsQuiet(st, t, s, choice);
    case DispatchPut(s, id) => PutIsQuiet(st, t, s, id);
    case DispatchExpired(s, id) => DropIsQuiet(st, t, s, id);
    case ResolvePop(s, id, r) => PopIsQuiet(st, t, s, id, r);
    case ResolveSet(s, id, r) => SetIsQuiet(st, t, s, id, r);
    case RegisterNew(loc) => NewIsQuiet(st, t, loc, choice);
    case CloseLock(s) => CloseIsQuiet(st, t, s);
    case CloseFail(s, rest) => FailIsQuiet(st, t, s, rest, choice);
    case _ => LookIsQuiet(st, t, choice);
  }

  lemma InstallMoves(st: State, t: ThreadId, s: SessionId)
    requires t in st.threads
    ensures OnlyMoves(st, StepInstall(st, t, s), t) && SessionsStay(st, StepInstall(st, t, s))
    ensures StepInstall(st, t, s).registry == if s in st.sessions then st.registry[st.sessions[s].location := s]
            else st.registry
  {
  }

  lemma UnregisterMoves(st: State, t: ThreadId, s: SessionId)
    requires t in st.threads
    ensures OnlyMoves(st, StepUnregister(st, t, s), t) && SessionsStay(st, StepUnregister(st, t, s))
    ensures var loc := if s in st.sessions then st.sessions[s].location else 0;
            StepUnregister(st, t, s).registry
              == if s in st.sessions && loc in st.registry && st.registry[loc] == s then st.registry - {loc}
              else st.registry
  {
  }

  /** Any step moves its own thread only, and takes nothing from a session. */
  lemma StepMoves(st: State, t: ThreadId, choice: nat)
    requires t in st.threads
    ensures OnlyMoves(st, StepThread(st, t, choice), t) && SessionsStay(st, StepThread(st, t, choice))
  {
    match st.threads[t]
    case RegisterInstall(s) => InstallMoves(st, t, s);
    case UnregisterLock(s) => UnregisterMoves(st, t, s);
    case _ => StepIsQuiet(st, t, choice);
  }
}
