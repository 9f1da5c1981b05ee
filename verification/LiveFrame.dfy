/** What a step of one thread may change, and why everything it does not touch stays in order. */
module LiveFrame {
  import opened Wrappers
  import opened SessionCore
  import opened LiveProtocol
  import opened LiveInvariant

  /** How a step of thread `t` may change a session: what other threads rely on stays. */
  predicate SessionMoves(a: Session, b: Session, t: ThreadId) {
    && b.location == a.location
    && (a.installed ==> b.installed)
    && (a.core.closed ==> b.core.closed)
    && (a.closer.Some? ==> b.closer == a.closer)
    && (a.keeper.Installing? && a.keeper.t != t ==> b.keeper == a.keeper && b.installed == a.installed)
    && (b.enqueued == a.enqueued
        || (|b.enqueued| == |a.enqueued| + 1 && b.enqueued[..|a.enqueued|] == a.enqueued
            && (b.enqueued[|a.enqueued|] == Sentinel ==> a.closer == Some(t))))
  }

  /** How a step of thread `t` may change a future. */
  predicate FutureMoves(a: Future, b: Future, t: ThreadId) {
    && b.session == a.session && b.dispatcher == a.dispatcher
    && (a.custody.Taken? && a.custody.holder != t ==> b == a)
    && (a.custody.Settled? ==> b == a)
    && (b.custody.Waiting? ==> a.custody.Waiting?)
    && (b.custody.Dropped? && !a.custody.Dropped? ==> a.dispatcher == t)
    && (Escaped(a) ==> Escaped(b))
  }

  ghost predicate OldSessions(st: State, st': State, t: ThreadId, ss: set<SessionId>) {
    forall s {:trigger SeeSession(s)} | s in st.sessions ::
      && s in st'.sessions
      && (s in ss ==> SessionMoves(st.sessions[s], st'.sessions[s], t))
      && (s !in ss ==> st'.sessions[s] == st.sessions[s])
  }

  ghost predicate NewSessions(st: State, st': State, ss: set<SessionId>) {
    forall s {:trigger SeeSession(s)} | s in st'.sessions && s !in ss :: s in st.sessions
  }

  ghost predicate OldFutures(st: State, st': State, t: ThreadId, ss: set<SessionId>, ids: set<CommandId>) {
    forall id {:trigger SeeFuture(id)} | id in st.futures ::
      && id in st'.futures
      && (id in ids ==> FutureMoves(st.futures[id], st'.futures[id], t) && st.futures[id].session in ss)
      && (id !in ids ==> st'.futures[id] == st.futures[id])
  }

  ghost predicate NewFutures(st: State, st': State, ids: set<CommandId>) {
    forall id {:trigger SeeFuture(id)} | id in st'.futures && id !in ids :: id in st.futures
  }

  ghost predicate SameLogs(st: State, st': State, ids: set<CommandId>) {
    forall id {:trigger SeeFuture(id)} | id !in ids ::
      st'.completions[id] == st.completions[id] && st'.acks[id] == st.acks[id]
  }

  ghost predicate OldEntries(st: State, st': State, ss: set<SessionId>) {
    forall loc {:trigger SeeEntry(loc)} | loc in st.registry ::
      st.registry[loc] in ss || (loc in st'.registry && st'.registry[loc] == st.registry[loc])
  }

  ghost predicate NewEntries(st: State, st': State, ss: set<SessionId>) {
    forall loc {:trigger SeeEntry(loc)} | loc in st'.registry ::
      st'.registry[loc] in ss || (loc in st.registry && st'.registry[loc] == st.registry[loc])
  }

  /** Thread `t` took a step that touched only the sessions `ss` and the futures `ids`. */
  ghost predicate Frame(st: State, st': State, t: ThreadId, ss: set<SessionId>, ids: set<CommandId>) {
    && t in st'.threads && st'.threads == st.threads[t := st'.threads[t]]
    && OldSessions(st, st', t, ss) && NewSessions(st, st', ss)
    && OldFutures(st, st', t, ss, ids) && NewFutures(st, st', ids)
    && SameLogs(st, st', ids)
    && OldEntries(st, st', ss) && NewEntries(st, st', ss)
  }

  lemma OtherThread(st: State, st': State, t: ThreadId, ss: set<SessionId>, ids: set<CommandId>, u: ThreadId, pc: Pc)
    requires Frame(st, st', t, ss, ids) && u != t && ThreadOk(st, u, pc) && FuturesOk(st)
    ensures ThreadOk(st', u, pc)
  {
    match pc
    case DispatchLookup(_) =>
    case RegisterNew(_) =>
    case DispatchEnlist(s) => assert SeeSession(s);
    case RegisterInstall(s) => assert SeeSession(s);
    case UnregisterLock(s) => assert SeeSession(s);
    case CloseLock(s) => assert SeeSession(s);
    case ResolveCheck(s, _, _) => assert SeeSession(s);
    case ResolvePop(s, _, _) => assert SeeSession(s);
    case DispatchPut(s, id) => assert SeeSession(s); assert SeeFuture(id);
    case DispatchWait(s, id) => assert SeeSession(s); assert SeeFuture(id);
    case DispatchExpired(s, id) => assert SeeSession(s); assert SeeFuture(id);
    case ResolveSet(s, id, _) => assert SeeSession(s); assert SeeFuture(id);
    case CloseFail(s, rest) =>
      assert SeeSession(s);
      forall id | id in rest ensures Has(st', s, id) && st'.futures[id].custody == Taken(Closer, u) {
        assert SeeFuture(id);
      }
    case Done(end) => OtherEnd(st, st', t, ss, ids, end);
  }

  /** How a call ended stays true whoever moves next. */
  lemma OtherEnd(st: State, st': State, t: ThreadId, ss: set<SessionId>, ids: set<CommandId>, end: End)
    requires Frame(st, st', t, ss, ids) && EndOk(st, end) && FuturesOk(st)
    ensures EndOk(st', end)
  {
    if end.Answered? || end.Disconnected? || end.TimedOut? || end.Acked? {
      assert SeeSession(end.s); assert SeeFuture(end.id);
    }
  }

  lemma OtherFuture(st: State, st': State, t: ThreadId, ss: set<SessionId>, ids: set<CommandId>, id: CommandId)
    requires Frame(st, st', t, ss, ids) && id in st.futures && id !in ids && FutureOk(st, id, st.futures[id])
    requires var f := st.futures[id]; f.custody.Taken? && f.custody.holder == t ==>
               Holds(st'.threads[t], f.custody.who, f.session, id)
    requires var f := st.futures[id]; f.dispatcher == t ==> Dispatching(st'.threads[t], f.session, id)
    requires var s := st.futures[id].session; s in ss && id in st.sessions[s].core.pending ==>
               s in st'.sessions && id in st'.sessions[s].core.pending
    ensures id in st'.futures && FutureOk(st', id, st'.futures[id])
  {
    assert SeeFuture(id) && SeeSession(st.futures[id].session);
  }

  lemma OtherSession(st: State, st': State, t: ThreadId, ss: set<SessionId>, ids: set<CommandId>, s: SessionId)
    requires Frame(st, st', t, ss, ids) && s in st.sessions && s !in ss && SessionOk(st, s, st.sessions[s])
    requires t in st.threads ==> st.threads[t] != RegisterInstall(s)
    requires t in st.threads && st.threads[t] == CloseLock(s) ==> st.sessions[s].core.closed
    ensures s in st'.sessions && SessionOk(st', s, st'.sessions[s])
  {
    assert SeeSession(s); assert SeeEntry(st.sessions[s].location);
    forall id | id in st.sessions[s].core.pending ensures Has(st', s, id) && st'.futures[id].custody.Waiting? {
      assert SeeFuture(id);
    }
  }

  lemma OtherMessage(st: State, st': State, t: ThreadId, ss: set<SessionId>, ids: set<CommandId>, s: SessionId, i: nat)
    requires Frame(st, st', t, ss, ids) && s in st.sessions && i < |st.sessions[s].enqueued| && MessageOk(st, s, i)
    ensures s in st'.sessions && i < |st'.sessions[s].enqueued| && MessageOk(st', s, i)
  {
    assert SeeSession(s);
    assert st'.sessions[s].enqueued[..i] == st.sessions[s].enqueued[..i];
    match st.sessions[s].enqueued[i]
    case Sentinel =>
    case Command(id) => assert SeeFuture(id);
  }

  // ----- what is left for a step to show about what it touched -----------------------------------

  ghost predicate TouchedSessions(st': State, ss: set<SessionId>) {
    forall s | s in ss :: s in st'.sessions && SessionOk(st', s, st'.sessions[s])
  }

  ghost predicate TouchedFutures(st': State, ids: set<CommandId>) {
    forall id | id in ids :: id in st'.futures && FutureOk(st', id, st'.futures[id])
  }

  ghost predicate TouchedEntries(st': State, ss: set<SessionId>) {
    forall loc {:trigger SeeEntry(loc)} | loc in st'.registry && st'.registry[loc] in ss ::
      EntryOk(st', loc, st'.registry[loc])
  }

  predicate StillPendingIn(st: State, st': State, ids: set<CommandId>, s: SessionId) {
    s in st.sessions && s in st'.sessions ==> st.sessions[s].core.pending - ids <= st'.sessions[s].core.pending
  }

  ghost predicate StillPending(st: State, st': State, ss: set<SessionId>, ids: set<CommandId>) {
    forall s | s in ss :: StillPendingIn(st, st', ids, s)
  }

  /** The mover stands where it completes what it holds, and where it waits for what it dispatched. */
  predicate Attends(pc: Pc, t: ThreadId, f: Future, id: CommandId) {
    && (f.custody.Taken? && f.custody.holder == t ==> Holds(pc, f.custody.who, f.session, id))
    && (f.dispatcher == t ==> Dispatching(pc, f.session, id))
  }

  ghost predicate StillAttends(st: State, st': State, t: ThreadId, ids: set<CommandId>)
    requires t in st'.threads
  {
    forall id {:trigger SeeFuture(id)} | id in st.futures && id !in ids ::
        Attends(st'.threads[t], t, st.futures[id], id)
  }

  ghost predicate NewMessageOk(st: State, st': State, s: SessionId)
    requires s in st'.sessions
  {
    var log := st'.sessions[s].enqueued;
    if s !in st.sessions then log == []
    else |log| > |st.sessions[s].enqueued| ==> MessageOk(st', s, |log| - 1)
  }

  ghost predicate NewMessages(st: State, st': State, ss: set<SessionId>) {
    forall s | s in ss && s in st'.sessions :: NewMessageOk(st, st', s)
  }

  predicate MoverReleases(st: State, t: ThreadId, ss: set<SessionId>) {
    t in st.threads ==>
      && (st.threads[t].RegisterInstall? ==> st.threads[t].s in ss)
      && (st.threads[t].CloseLock? ==>
            st.threads[t].s in ss || (st.threads[t].s in st.sessions && st.sessions[st.threads[t].s].core.closed))
  }

  ghost predicate Touched(st: State, st': State, t: ThreadId, ss: set<SessionId>, ids: set<CommandId>)
    requires t in st'.threads
  {
    && ThreadOk(st', t, st'.threads[t])
    && TouchedSessions(st', ss) && TouchedFutures(st', ids) && TouchedEntries(st', ss)
    && StillPending(st, st', ss, ids) && StillAttends(st, st', t, ids)
    && NewMessages(st, st', ss) && MoverReleases(st, t, ss)
  }

  lemma KeepsThreads(st: State, st': State, t: ThreadId, ss: set<SessionId>, ids: set<CommandId>)
    requires ThreadsOk(st) && FuturesOk(st) && Frame(st, st', t, ss, ids) && ThreadOk(st', t, st'.threads[t])
    ensures ThreadsOk(st')
  {
    forall u | u in st'.threads ensures ThreadOk(st', u, st'.threads[u]) {
      assert SeeThread(u);
      if u != t { OtherThread(st, st', t, ss, ids, u, st.threads[u]); }
    }
  }

  lemma KeepsFutures(st: State, st': State, t: ThreadId, ss: set<SessionId>, ids: set<CommandId>)
    requires FuturesOk(st) && Frame(st, st', t, ss, ids) && Touched(st, st', t, ss, ids)
    ensures FuturesOk(st')
  {
    forall id | id in st'.futures ensures FutureOk(st', id, st'.futures[id]) {
      assert SeeFuture(id);
      if id !in ids {
        assert StillPendingIn(st, st', ids, st.futures[id].session) || st.futures[id].session !in ss;
        OtherFuture(st, st', t, ss, ids, id);
      }
    }
  }

  lemma KeepsSessions(st: State, st': State, t: ThreadId, ss: set<SessionId>, ids: set<CommandId>)
    requires SessionsOk(st) && Frame(st, st', t, ss, ids) && TouchedSessions(st', ss) && MoverReleases(st, t, ss)
    ensures SessionsOk(st')
  {
    forall s | s in st'.sessions ensures SessionOk(st', s, st'.sessions[s]) {
      assert SeeSession(s);
      if s !in ss { OtherSession(st, st', t, ss, ids, s); }
    }
  }

  lemma KeepsEntries(st: State, st': State, t: ThreadId, ss: set<SessionId>, ids: set<CommandId>)
    requires RegistryOk(st) && Frame(st, st', t, ss, ids) && TouchedEntries(st', ss)
    ensures RegistryOk(st')
  {
    forall loc | loc in st'.registry ensures EntryOk(st', loc, st'.registry[loc]) {
      assert SeeEntry(loc);
      assert SeeSession(st'.registry[loc]);
    }
  }

  lemma KeepsMessages(st: State, st': State, t: ThreadId, ss: set<SessionId>, ids: set<CommandId>)
    requires MessagesOk(st) && Frame(st, st', t, ss, ids) && NewMessages(st, st', ss)
    ensures MessagesOk(st')
  {
    forall s, i | s in st'.sessions && 0 <= i < |st'.sessions[s].enqueued| ensures MessageOk(st', s, i) {
      assert SeeSession(s);
      if s in st.sessions && i < |st.sessions[s].enqueued| {
        assert SeeMessage(s, i);
        OtherMessage(st, st', t, ss, ids, s, i);
      } else {
        assert s in ss;
        assert NewMessageOk(st, st', s);
      }
    }
  }

  lemma KeepsLogs(st: State, st': State, t: ThreadId, ss: set<SessionId>, ids: set<CommandId>)
    requires LogsOk(st) && Frame(st, st', t, ss, ids) && TouchedFutures(st', ids)
    ensures LogsOk(st')
  {
    forall id | id !in st'.futures ensures st'.completions[id] == 0 && st'.acks[id] == 0 {
      assert SeeFuture(id);
    }
  }

  lemma Keeps(st: State, st': State, t: ThreadId, ss: set<SessionId>, ids: set<CommandId>)
    requires Inv(st) && Frame(st, st', t, ss, ids) && Touched(st, st', t, ss, ids)
    ensures Inv(st')
  {
    KeepsThreads(st, st', t, ss, ids);
    KeepsFutures(st, st', t, ss, ids);
    KeepsSessions(st, st', t, ss, ids);
    KeepsEntries(st, st', t, ss, ids);
    KeepsMessages(st, st', t, ss, ids);
    KeepsLogs(st, st', t, ss, ids);
  }
}
