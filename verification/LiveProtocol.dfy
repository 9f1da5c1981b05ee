/** The live command protocol between the portal and its agents, under any interleaving.

    Every lock region and every unlocked action of `AgentSession` and `AgentConnectionRegistry` is
    one atomic step. Any number of calls run at once, one thread each; a run is any sequence of
    actions, and an action that is not enabled leaves the state alone. Fields marked as history are
    never read by a step: they record what happened, so that a property of a run can be stated as a
    property of the state it ends in. */
module LiveProtocol {
  import opened Wrappers
  import opened SessionCore

  type ThreadId = nat
  type SessionId = nat
  type LocationId = nat

  datatype Remover = Resolver | Closer

  /** Where a future is in its life: in the pending map of its session, popped by a thread that has
      not completed it yet, completed, or dropped by its own dispatcher after a timeout. */
  datatype Custody = Waiting | Taken(who: Remover, holder: ThreadId) | Settled(who: Remover) | Dropped

  datatype Outcome = Incomplete | Delivered(result: Payload, via: SessionId) | Failed

  datatype Future = Future(
    session: SessionId, outcome: Outcome,
    dispatcher: ThreadId, custody: Custody)  // history

  /** The message loop's outbound half: waiting for the queue, or holding one dequeued message. */
  datatype Sender = Receiving | Holding(m: Message)

  /** History: why an open session will not be forgotten. */
  datatype Keeper = Installing(t: ThreadId) | Registered | Owed(t: ThreadId)

  /** History: how many futures entered the pending map and how many left it, by whom. */
  datatype Counts = Counts(enlisted: nat, resolved: nat, failed: nat, expired: nat)

  datatype Session = Session(
    location: LocationId, core: Core, installed: bool, looping: bool, sender: Sender,
    enqueued: seq<Message>, sent: seq<Message>,                        // history
    closer: Option<ThreadId>, keeper: Keeper, counts: Counts)          // history

  /** How a call ended. */
  datatype End =
    | Answered(s: SessionId, id: CommandId, r: Payload)   // dispatch returned a result
    | Disconnected(s: SessionId, id: CommandId)           // dispatch raised AgentUnavailableError
    | TimedOut(s: SessionId, id: CommandId)               // dispatch raised AgentCommandTimeoutError
    | Refused                                             // dispatch found no open session
    | Acked(s: SessionId, id: CommandId, r: Payload)      // resolve_result returned True
    | Ignored                                             // resolve_result returned False
    | Finished                                            // register, unregister or close returned

  /** The program points of the calls: each constructor names the next atomic step. */
  datatype Pc =
    | DispatchLookup(loc: LocationId)
    | DispatchEnlist(s: SessionId)
    | DispatchPut(s: SessionId, id: CommandId)
    | DispatchWait(s: SessionId, id: CommandId)
    | DispatchExpired(s: SessionId, id: CommandId)
    | ResolveCheck(s: SessionId, id: CommandId, r: Payload)
    | ResolvePop(s: SessionId, id: CommandId, r: Payload)
    | ResolveSet(s: SessionId, id: CommandId, r: Payload)
    | RegisterNew(loc: LocationId)
    | RegisterInstall(s: SessionId)
    | UnregisterLock(s: SessionId)
    | CloseLock(s: SessionId)
    | CloseFail(s: SessionId, rest: set<CommandId>)
    | Done(end: End)

  datatype State = State(
    sessions: map<SessionId, Session>,
    registry: map<LocationId, SessionId>,
    futures: map<CommandId, Future>,
    threads: map<ThreadId, Pc>,
    completions: multiset<CommandId>,   // history: calls of set_result and set_exception
    acks: multiset<CommandId>)          // history: resolve_result returned True

  /** `Go` runs the next step of a thread; `choice` picks a fresh id or the future to fail next. */
  datatype Action =
    | Spawn(t: ThreadId, call: Pc)
    | Go(t: ThreadId, choice: nat)
    | Expire(t: ThreadId)
    | Dequeue(s: SessionId)
    | Send(s: SessionId)
    | LeaveLoop(s: SessionId)

  const START := State(map[], map[], map[], map[], multiset{}, multiset{})

  // ----- updates -------------------------------------------------------------------------------

  function SetPc(st: State, t: ThreadId, pc: Pc): State {
    st.(threads := st.threads[t := pc])
  }

  function SetSession(st: State, s: SessionId, session: Session): State {
    st.(sessions := st.sessions[s := session])
  }

  function SetFuture(st: State, id: CommandId, f: Future): State {
    st.(futures := st.futures[id := f])
  }

  function Enqueue(session: Session, m: Message): Session {
    session.(core := Put(session.core, m), enqueued := session.enqueued + [m])
  }

  /** `set_result` or `set_exception` on the future of `id`. */
  function Complete(st: State, id: CommandId, who: Remover, outcome: Outcome): State
    requires id in st.futures
  {
    SetFuture(st, id, st.futures[id].(outcome := outcome, custody := Settled(who)))
      .(completions := st.completions + multiset{id})
  }

  // ----- the steps of the calls ----------------------------------------------------------------

  /** A call may start on any location, or on any session that `register` has installed. */
  predicate MayStart(st: State, call: Pc) {
    match call
    case DispatchLookup(_) => true
    case RegisterNew(_) => true
    case ResolveCheck(s, _, _) => s in st.sessions && st.sessions[s].installed
    case UnregisterLock(s) => s in st.sessions && st.sessions[s].installed
    case CloseLock(s) => s in st.sessions && st.sessions[s].installed
    case _ => false
  }

  function StepLookup(st: State, t: ThreadId, loc: LocationId): State {
    SetPc(st, t, if loc in st.registry then DispatchEnlist(st.registry[loc]) else Done(Refused))
  }

  function StepEnlist(st: State, t: ThreadId, s: SessionId, id: CommandId): State {
    if s !in st.sessions || id in st.futures then st
    else if st.sessions[s].core.closed then SetPc(st, t, Done(Refused))
    else
      var session := st.sessions[s];
      var next := session.(core := Enlist(session.core, id),
                           counts := session.counts.(enlisted := session.counts.enlisted + 1));
      SetPc(SetFuture(SetSession(st, s, next), id, Future(s, Incomplete, t, Waiting)), t, DispatchPut(s, id))
  }

  function StepPut(st: State, t: ThreadId, s: SessionId, id: CommandId): State {
    if s !in st.sessions then st
    else SetPc(SetSession(st, s, Enqueue(st.sessions[s], Command(id))), t, DispatchWait(s, id))
  }

  /** `Future.result` returns once the future is complete. */
  function StepWait(st: State, t: ThreadId, s: SessionId, id: CommandId): State {
    if id !in st.futures then st
    else match st.futures[id].outcome
      case Incomplete => st
      case Delivered(r, _) => SetPc(st, t, Done(Answered(s, id, r)))
      case Failed => SetPc(st, t, Done(Disconnected(s, id)))
  }

  /** `Future.result` raises `TimeoutError`, which it does only while the future is incomplete. */
  function StepExpire(st: State, t: ThreadId): State {
    if t in st.threads && st.threads[t].DispatchWait?
       && st.threads[t].id in st.futures && st.futures[st.threads[t].id].outcome.Incomplete?
    then SetPc(st, t, DispatchExpired(st.threads[t].s, st.threads[t].id))
    else st
  }

  function StepDrop(st: State, t: ThreadId, s: SessionId, id: CommandId): State {
    if s !in st.sessions || id !in st.futures then st
    else if id !in st.sessions[s].core.pending then SetPc(st, t, Done(TimedOut(s, id)))
    else
      var session := st.sessions[s];
      var next := session.(core := Pop(session.core, id),
                           counts := session.counts.(expired := session.counts.expired + 1));
      SetPc(SetFuture(SetSession(st, s, next), id, st.futures[id].(custody := Dropped)), t, Done(TimedOut(s, id)))
  }

  function StepCheck(st: State, t: ThreadId, s: SessionId, id: CommandId, r: Payload): State {
    if s !in st.sessions then st
    else
      var loc := st.sessions[s].location;
      SetPc(st, t, if loc in st.registry && st.registry[loc] == s then ResolvePop(s, id, r) else Done(Ignored))
  }

  function StepPop(st: State, t: ThreadId, s: SessionId, id: CommandId, r: Payload): State {
    if s !in st.sessions then st
    else if id !in st.sessions[s].core.pending || id !in st.futures then SetPc(st, t, Done(Ignored))
    else
      var session := st.sessions[s];
      var next := session.(core := Pop(session.core, id),
                           counts := session.counts.(resolved := session.counts.resolved + 1));
      SetPc(SetFuture(SetSession(st, s, next), id, st.futures[id].(custody := Taken(Resolver, t))),
            t, ResolveSet(s, id, r))
  }

  function StepSet(st: State, t: ThreadId, s: SessionId, id: CommandId, r: Payload): State {
    if id !in st.futures then st
    else
      var done := Complete(st, id, Resolver, Delivered(r, s));
      SetPc(done.(acks := done.acks + multiset{id}), t, Done(Acked(s, id, r)))
  }

  function StepNew(st: State, t: ThreadId, loc: LocationId, s: SessionId): State {
    if s in st.sessions then st
    else
      var session := Session(loc, FRESH, false, true, Receiving, [], [], None, Installing(t), Counts(0, 0, 0, 0));
      SetPc(SetSession(st, s, session), t, RegisterInstall(s))
  }

  /** The registry's lock region in `register`; closing the displaced session is a later step. */
  function StepInstall(st: State, t: ThreadId, s: SessionId): State {
    if s !in st.sessions then st
    else
      var loc := st.sessions[s].location;
      var placed := SetSession(st, s, st.sessions[s].(installed := true, keeper := Registered))
                      .(registry := st.registry[loc := s]);
      if loc in st.registry && st.registry[loc] in st.sessions then
        var prior := st.registry[loc];
        SetPc(SetSession(placed, prior, placed.sessions[prior].(keeper := Owed(t))), t, CloseLock(prior))
      else SetPc(placed, t, Done(Finished))
  }

  function StepUnregister(st: State, t: ThreadId, s: SessionId): State {
    if s !in st.sessions then st
    else
      var loc := st.sessions[s].location;
      if loc in st.registry && st.registry[loc] == s then
        SetPc(SetSession(st, s, st.sessions[s].(keeper := Owed(t))).(registry := st.registry - {loc}), t, CloseLock(s))
      else SetPc(st, t, CloseLock(s))
  }

  /** The futures of `ids`, each now popped by the closer `t`. */
  function Seize(st: State, ids: set<CommandId>, t: ThreadId): State {
    st.(futures := map id | id in st.futures ::
          if id in ids then st.futures[id].(custody := Taken(Closer, t)) else st.futures[id])
  }

  function StepClose(st: State, t: ThreadId, s: SessionId): State {
    if s !in st.sessions then st
    else if st.sessions[s].core.closed then SetPc(st, t, Done(Finished))
    else
      var session := st.sessions[s];
      var next := session.(core := Shut(session.core), closer := Some(t),
                           counts := session.counts.(failed := session.counts.failed + |session.core.pending|));
      SetPc(Seize(SetSession(st, s, next), session.core.pending, t), t, CloseFail(s, session.core.pending))
  }

  /** Fail one of the snapshotted futures, in any order, or put the sentinel once none is left. */
  function StepFail(st: State, t: ThreadId, s: SessionId, rest: set<CommandId>, id: CommandId): State {
    if s !in st.sessions then st
    else if rest == {} then SetPc(SetSession(st, s, Enqueue(st.sessions[s], Sentinel)), t, Done(Finished))
    else if id !in rest || id !in st.futures then st
    else SetPc(Complete(st, id, Closer, Failed), t, CloseFail(s, rest - {id}))
  }

  // ----- the steps of the message loop's outbound half -----------------------------------------

  function StepDequeue(st: State, s: SessionId): State {
    if s in st.sessions && st.sessions[s].sender.Receiving? && st.sessions[s].core.outbound != [] then
      var session := st.sessions[s];
      SetSession(st, s, session.(core := Get(session.core), sender := Holding(session.core.outbound[0])))
    else st
  }

  /** A held payload is sent while the loop runs; a held sentinel ends the loop instead. */
  function StepSend(st: State, s: SessionId): State {
    if s in st.sessions && st.sessions[s].looping && st.sessions[s].sender.Holding? then
      var session := st.sessions[s];
      if session.sender.m.Sentinel? then SetSession(st, s, session.(looping := false))
      else SetSession(st, s, session.(sender := Receiving, sent := session.sent + [session.sender.m]))
    else st
  }

  function StepLeave(st: State, s: SessionId): State {
    if s in st.sessions then SetSession(st, s, st.sessions[s].(looping := false)) else st
  }

  function StepThread(st: State, t: ThreadId, choice: nat): State
    requires t in st.threads
  {
    match st.threads[t]
    case DispatchLookup(loc) => StepLookup(st, t, loc)
    case DispatchEnlist(s) => StepEnlist(st, t, s, choice)
    case DispatchPut(s, id) => StepPut(st, t, s, id)
    case DispatchWait(s, id) => StepWait(st, t, s, id)
    case DispatchExpired(s, id) => StepDrop(st, t, s, id)
    case ResolveCheck(s, id, r) => StepCheck(st, t, s, id, r)
    case ResolvePop(s, id, r) => StepPop(st, t, s, id, r)
    case ResolveSet(s, id, r) => StepSet(st, t, s, id, r)
    case RegisterNew(loc) => StepNew(st, t, loc, choice)
    case RegisterInstall(s) => StepInstall(st, t, s)
    case UnregisterLock(s) => StepUnregister(st, t, s)
    case CloseLock(s) => StepClose(st, t, s)
    case CloseFail(s, rest) => StepFail(st, t, s, rest, choice)
    case Done(_) => st
  }

  function Step(st: State, a: Action): State {
    match a
    case Spawn(t, call) => if t !in st.threads && MayStart(st, call) then SetPc(st, t, call) else st
    case Go(t, choice) => if t in st.threads then StepThread(st, t, choice) else st
    case Expire(t) => StepExpire(st, t)
    case Dequeue(s) => StepDequeue(st, s)
    case Send(s) => StepSend(st, s)
    case LeaveLoop(s) => StepLeave(st, s)
  }

  /** The state a run ends in. */
  function Run(st: State, acts: seq<Action>): State
    decreases |acts|
  {
    if acts == [] then st else Run(Step(st, acts[0]), acts[1..])
  }
}
