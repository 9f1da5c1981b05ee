/** The invariant of the live command protocol: what holds of every thread, future, session, registry
    entry and queued message, whatever ran before. */
module LiveInvariant {
  import opened Wrappers
  import opened SessionCore
  import opened LiveProtocol

  // ----- what must hold of each thread, future and session --------------------------------------

  predicate Has(st: State, s: SessionId, id: CommandId) {
    s in st.sessions && id in st.futures && st.futures[id].session == s
  }

  predicate Mine(st: State, t: ThreadId, s: SessionId, id: CommandId) {
    Has(st, s, id) && st.futures[id].dispatcher == t
  }

  predicate HasInstalled(st: State, s: SessionId) {
    s in st.sessions && st.sessions[s].installed
  }

  ghost predicate ThreadOk(st: State, t: ThreadId, pc: Pc) {
    match pc
    case DispatchLookup(_) => true
    case DispatchEnlist(s) => s in st.sessions
    case DispatchPut(s, id) => Mine(st, t, s, id) && !st.futures[id].custody.Dropped?
    case DispatchWait(s, id) => Mine(st, t, s, id) && !st.futures[id].custody.Dropped?
    case DispatchExpired(s, id) => Mine(st, t, s, id) && !st.futures[id].custody.Dropped?
    case ResolveCheck(s, _, _) => HasInstalled(st, s)
    case ResolvePop(s, _, _) => HasInstalled(st, s)
    case ResolveSet(s, id, _) => Has(st, s, id) && st.futures[id].custody == Taken(Resolver, t)
    case RegisterNew(_) => true
    case RegisterInstall(s) => s in st.sessions && st.sessions[s].keeper == Installing(t) && !st.sessions[s].installed
    case UnregisterLock(s) => HasInstalled(st, s)
    case CloseLock(s) => HasInstalled(st, s)
    case CloseFail(s, rest) =>
      && s in st.sessions && st.sessions[s].core.closed && st.sessions[s].closer == Some(t)
      && Sentinel !in st.sessions[s].enqueued
      && forall id | id in rest :: Has(st, s, id) && st.futures[id].custody == Taken(Closer, t)
    case Done(end) => EndOk(st, end)
  }

  predicate EndOk(st: State, end: End) {
    match end
    case Answered(s, id, r) => Has(st, s, id) && st.futures[id].outcome == Delivered(r, s)
    case Disconnected(s, id) => Has(st, s, id) && st.futures[id].outcome == Failed
    case TimedOut(s, id) => Has(st, s, id) && !st.futures[id].custody.Waiting?
    case Acked(s, id, r) => Has(st, s, id) && st.futures[id].outcome == Delivered(r, s)
    case Refused => true
    case Ignored => true
    case Finished => true
  }

  /** The thread a popped, incomplete future belongs to stands where it completes that future. */
  predicate Holds(pc: Pc, who: Remover, s: SessionId, id: CommandId) {
    match who
    case Resolver => pc.ResolveSet? && pc.s == s && pc.id == id
    case Closer => pc.CloseFail? && pc.s == s && id in pc.rest
  }

  /** The call that registered future `id` on `s` is still waiting for it, or ended on it. */
  predicate Dispatching(pc: Pc, s: SessionId, id: CommandId) {
    match pc
    case DispatchPut(s', id') => s' == s && id' == id
    case DispatchWait(s', id') => s' == s && id' == id
    case DispatchExpired(s', id') => s' == s && id' == id
    case Done(Answered(s', id', _)) => s' == s && id' == id
    case Done(Disconnected(s', id')) => s' == s && id' == id
    case Done(TimedOut(s', id')) => s' == s && id' == id
    case _ => false
  }

  predicate CustodyOk(f: Future) {
    match f.custody
    case Waiting => f.outcome == Incomplete
    case Taken(_, _) => f.outcome == Incomplete
    case Dropped => f.outcome == Incomplete
    case Settled(Resolver) => f.outcome.Delivered? && f.outcome.via == f.session
    case Settled(Closer) => f.outcome == Failed
  }

  predicate FutureOk(st: State, id: CommandId, f: Future) {
    && f.session in st.sessions
    && CustodyOk(f)
    && (f.custody.Waiting? ==> id in st.sessions[f.session].core.pending)
    && (f.custody.Taken? ==>
          f.custody.holder in st.threads && Holds(st.threads[f.custody.holder], f.custody.who, f.session, id))
    && (f.outcome == Failed ==> st.sessions[f.session].core.closed)
    && f.dispatcher in st.threads && Dispatching(st.threads[f.dispatcher], f.session, id)
    && st.completions[id] == (if f.outcome.Incomplete? then 0 else 1)
    && st.acks[id] == (if f.outcome.Delivered? then 1 else 0)
  }

  /** A payload behind the sentinel belongs to a future that a resolver popped or somebody completed. */
  predicate Escaped(f: Future) {
    f.custody.Settled? || (f.custody.Taken? && f.custody.who == Resolver)
  }

  ghost predicate MessageOk(st: State, s: SessionId, i: nat)
    requires s in st.sessions && i < |st.sessions[s].enqueued|
  {
    var log := st.sessions[s].enqueued;
    match log[i]
    case Command(id) => Has(st, s, id) && (Sentinel in log[..i] ==> Escaped(st.futures[id]))
    case Sentinel => st.sessions[s].core.closed && Sentinel !in log[..i]
  }

  function InHand(sender: Sender): seq<Message> {
    match sender case Receiving => [] case Holding(m) => [m]
  }

  /** What holds inside one session, whatever the rest of the system does. */
  ghost predicate LocalOk(session: Session) {
    && (session.core.closed <==> session.closer.Some?)
    && (session.core.closed ==> session.core.pending == {})
    && session.counts.enlisted
         == |session.core.pending| + session.counts.resolved + session.counts.failed + session.counts.expired
    && session.sent + InHand(session.sender) + session.core.outbound == session.enqueued
    && Sentinel !in session.sent
  }

  predicate KeeperOk(st: State, s: SessionId, session: Session) {
    match session.keeper
    case Installing(t) =>
      !session.installed && !session.core.closed && t in st.threads && st.threads[t] == RegisterInstall(s)
    case Registered =>
      session.installed && session.location in st.registry && st.registry[session.location] == s
    case Owed(t) =>
      session.installed && (!session.core.closed ==> t in st.threads && st.threads[t] == CloseLock(s))
  }

  ghost predicate SessionOk(st: State, s: SessionId, session: Session) {
    && LocalOk(session)
    && KeeperOk(st, s, session)
    && forall id | id in session.core.pending :: Has(st, s, id) && st.futures[id].custody.Waiting?
  }

  predicate EntryOk(st: State, loc: LocationId, s: SessionId) {
    s in st.sessions && st.sessions[s].location == loc && st.sessions[s].keeper == Registered
  }

  /** The quantifiers of the invariant are instantiated by hand, one element at a time, by asserting
      one of these: left to itself, the solver would chase threads to futures to sessions to threads. */
  predicate SeeThread(t: ThreadId) { true }
  predicate SeeFuture(id: CommandId) { true }
  predicate SeeSession(s: SessionId) { true }
  predicate SeeEntry(loc: LocationId) { true }
  predicate SeeMessage(s: SessionId, i: int) { true }

  ghost predicate ThreadsOk(st: State) {
    forall t {:trigger SeeThread(t)} | t in st.threads :: ThreadOk(st, t, st.threads[t])
  }

  ghost predicate FuturesOk(st: State) {
    forall id {:trigger SeeFuture(id)} | id in st.futures :: FutureOk(st, id, st.futures[id])
  }

  ghost predicate SessionsOk(st: State) {
    forall s {:trigger SeeSession(s)} | s in st.sessions :: SessionOk(st, s, st.sessions[s])
  }

  ghost predicate RegistryOk(st: State) {
    forall loc {:trigger SeeEntry(loc)} | loc in st.registry :: EntryOk(st, loc, st.registry[loc])
  }

  ghost predicate MessagesOk(st: State) {
    forall s, i {:trigger SeeMessage(s, i)} | s in st.sessions && 0 <= i < |st.sessions[s].enqueued| ::
      MessageOk(st, s, i)
  }

  ghost predicate LogsOk(st: State) {
    forall id {:trigger SeeFuture(id)} | id !in st.futures :: st.completions[id] == 0 && st.acks[id] == 0
  }

  ghost predicate Inv(st: State) {
    ThreadsOk(st) && FuturesOk(st) && SessionsOk(st) && RegistryOk(st) && MessagesOk(st) && LogsOk(st)
  }
}
