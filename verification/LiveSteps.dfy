/** Every step of the live command protocol keeps its invariant. */
module LiveSteps {
  import opened SessionCore
  import opened LiveProtocol
  import opened LiveInvariant
  import opened LiveFrame

  predicate At(st: State, t: ThreadId, pc: Pc) {
    t in st.threads && st.threads[t] == pc
  }

  lemma LookFuture(st: State, id: CommandId)
    requires FuturesOk(st) && id in st.futures
    ensures FutureOk(st, id, st.futures[id])
  {
    assert SeeFuture(id);
  }

  /** The mover goes on attending to what it attended to, except the futures it touched in this step. */
  lemma AttendsRest(st: State, st': State, t: ThreadId, ids: set<CommandId>)
    requires FuturesOk(st) && t in st'.threads
    requires t in st.threads ==>
               forall who, s, id :: id !in ids && Holds(st.threads[t], who, s, id) ==> Holds(st'.threads[t], who, s, id)
    requires t in st.threads ==>
               forall s, id :: id !in ids && Dispatching(st.threads[t], s, id) ==> Dispatching(st'.threads[t], s, id)
    ensures StillAttends(st, st', t, ids)
  {
    forall id | id in st.futures && id !in ids ensures Attends(st'.threads[t], t, st.futures[id], id) {
      LookFuture(st, id);
    }
  }

  // ----- one session, whatever the rest does ----------------------------------------------------------

  lemma EnqueuedStaysLocal(session: Session, m: Message)
    requires LocalOk(session)
    ensures LocalOk(Enqueue(session, m))
  {
    var hand := session.sent + InHand(session.sender);
    assert hand + (session.core.outbound + [m]) == (hand + session.core.outbound) + [m];
  }

  lemma EnlistedStaysLocal(session: Session, id: CommandId)
    requires LocalOk(session) && !session.core.closed && id !in session.core.pending
    ensures LocalOk(session.(core := Enlist(session.core, id),
                             counts := session.counts.(enlisted := session.counts.enlisted + 1)))
  {
  }

  lemma PoppedStaysLocal(session: Session, id: CommandId)
    requires LocalOk(session) && id in session.core.pending
    ensures LocalOk(session.(core := Pop(session.core, id),
                             counts := session.counts.(resolved := session.counts.resolved + 1)))
    ensures LocalOk(session.(core := Pop(session.core, id),
                             counts := session.counts.(expired := session.counts.expired + 1)))
  {
    assert |session.core.pending - {id}| == |session.core.pending| - 1;
  }

  /** The obligations about futures, when a step changes exactly the one of `id`. */
  lemma OneFuture(st: State, st': State, t: ThreadId, s: SessionId, id: CommandId)
    requires id in st.futures && id in st'.futures && st'.futures == st.futures[id := st'.futures[id]]
    requires FutureMoves(st.futures[id], st'.futures[id], t) && st.futures[id].session == s
    ensures OldFutures(st, st', t, {s}, {id}) && NewFutures(st, st', {id})
  {
    forall j | j in st.futures
      ensures j in st'.futures
      ensures j in {id} ==> FutureMoves(st.futures[j], st'.futures[j], t) && st.futures[j].session in {s}
      ensures j !in {id} ==> st'.futures[j] == st.futures[j]
    {
    }
  }

  /** The obligations about sessions, when a step changes exactly `s`. */
  lemma OneSession(st: State, st': State, t: ThreadId, s: SessionId)
    requires s in st.sessions && s in st'.sessions && st'.sessions == st.sessions[s := st'.sessions[s]]
    requires SessionMoves(st.sessions[s], st'.sessions[s], t)
    ensures OldSessions(st, st', t, {s}) && NewSessions(st, st', {s})
  {
    forall x | x in st.sessions
      ensures x in st'.sessions
      ensures x in {s} ==> SessionMoves(st.sessions[x], st'.sessions[x], t)
      ensures x !in {s} ==> st'.sessions[x] == st.sessions[x]
    {
    }
  }

  lemma OpenHasNoSentinel(st: State, s: SessionId)
    requires MessagesOk(st) && s in st.sessions && !st.sessions[s].core.closed
    ensures Sentinel !in st.sessions[s].enqueued
  {
    forall i | 0 <= i < |st.sessions[s].enqueued| ensures st.sessions[s].enqueued[i] != Sentinel {
      assert SeeMessage(s, i);
    }
  }

  lemma SameEntries(st: State, st': State, ss: set<SessionId>)
    requires RegistryOk(st) && st'.registry == st.registry
    requires forall s | s in ss && s in st.sessions ::
               s in st'.sessions && st'.sessions[s].location == st.sessions[s].location
               && st'.sessions[s].keeper == st.sessions[s].keeper
    ensures TouchedEntries(st', ss)
  {
    forall loc | loc in st'.registry && st'.registry[loc] in ss ensures EntryOk(st', loc, st'.registry[loc]) {
      assert SeeEntry(loc);
    }
  }

  /** A step that touches one session, leaves the registry alone, and moves thread `t`. */
  lemma SessionStepKeeps(st: State, st': State, t: ThreadId, s: SessionId, ids: set<CommandId>)
    requires Inv(st) && s in st.sessions && s in st'.sessions && st'.sessions == st.sessions[s := st'.sessions[s]]
    requires st'.registry == st.registry
    requires t in st'.threads && st'.threads == st.threads[t := st'.threads[t]] && ThreadOk(st', t, st'.threads[t])
    requires OldFutures(st, st', t, {s}, ids) && NewFutures(st, st', ids) && SameLogs(st, st', ids)
    requires TouchedFutures(st', ids)
    requires SessionMoves(st.sessions[s], st'.sessions[s], t) && st'.sessions[s].keeper == st.sessions[s].keeper
    requires SessionOk(st', s, st'.sessions[s])
    requires st.sessions[s].core.pending - ids <= st'.sessions[s].core.pending
    requires StillAttends(st, st', t, ids) && NewMessageOk(st, st', s) && MoverReleases(st, t, {s})
    ensures Inv(st')
  {
    SameEntries(st, st', {s});
    OneSession(st, st', t, s);
    Keeps(st, st', t, {s}, ids);
  }

  /** A step that only moves thread `t` to `pc`. */
  lemma MoveKeeps(st: State, t: ThreadId, pc: Pc)
    requires Inv(st) && ThreadOk(SetPc(st, t, pc), t, pc)
    requires t in st.threads ==>
               !st.threads[t].RegisterInstall? && !st.threads[t].ResolveSet?
               && !st.threads[t].CloseFail?
    requires t in st.threads ==> forall s, id :: Dispatching(st.threads[t], s, id) ==> Dispatching(pc, s, id)
    requires t in st.threads && st.threads[t].CloseLock? ==>
               st.threads[t].s in st.sessions && st.sessions[st.threads[t].s].core.closed
    ensures Inv(SetPc(st, t, pc))
  {
    var st' := SetPc(st, t, pc);
    AttendsRest(st, st', t, {});
    Keeps(st, st', t, {}, {});
  }

  lemma SpawnKeeps(st: State, t: ThreadId, call: Pc)
    requires Inv(st) && t !in st.threads && MayStart(st, call)
    ensures Inv(SetPc(st, t, call))
  {
    MoveKeeps(st, t, call);
  }

  lemma LookupKeeps(st: State, t: ThreadId, loc: LocationId)
    requires Inv(st) && At(st, t, DispatchLookup(loc))
    ensures Inv(StepLookup(st, t, loc))
  {
    assert SeeEntry(loc);
    MoveKeeps(st, t, if loc in st.registry then DispatchEnlist(st.registry[loc]) else Done(Refused));
  }

  lemma EnlistKeeps(st: State, t: ThreadId, s: SessionId, id: CommandId)
    requires Inv(st) && At(st, t, DispatchEnlist(s))
    ensures Inv(StepEnlist(st, t, s, id))
  {
    if s in st.sessions && id !in st.futures {
      assert SeeSession(s); assert SeeFuture(id);
      if st.sessions[s].core.closed {
        MoveKeeps(st, t, Done(Refused));
      } else {
        EnlistOpenKeeps(st, t, s, id);
      }
    }
  }

  lemma EnlistOpenKeeps(st: State, t: ThreadId, s: SessionId, id: CommandId)
    requires Inv(st) && At(st, t, DispatchEnlist(s)) && s in st.sessions && id !in st.futures
    requires SessionOk(st, s, st.sessions[s]) && !st.sessions[s].core.closed
    requires st.completions[id] == 0 && st.acks[id] == 0
    ensures Inv(StepEnlist(st, t, s, id))
  {
    var st' := StepEnlist(st, t, s, id);
    EnlistedStaysLocal(st.sessions[s], id);
    AttendsRest(st, st', t, {id});
    SessionStepKeeps(st, st', t, s, {id});
  }

  lemma PutKeeps(st: State, t: ThreadId, s: SessionId, id: CommandId)
    requires Inv(st) && At(st, t, DispatchPut(s, id))
    ensures Inv(StepPut(st, t, s, id))
  {
    assert SeeThread(t); assert SeeSession(s);
    LookFuture(st, id);
    if Sentinel in st.sessions[s].enqueued { NotBehindSentinel(st, s, id); }
    PutMineKeeps(st, t, s, id);
  }

  lemma PutMineKeeps(st: State, t: ThreadId, s: SessionId, id: CommandId)
    requires Inv(st) && At(st, t, DispatchPut(s, id)) && Mine(st, t, s, id) && !st.futures[id].custody.Dropped?
    requires SessionOk(st, s, st.sessions[s]) && (Sentinel in st.sessions[s].enqueued ==> Escaped(st.futures[id]))
    ensures Inv(StepPut(st, t, s, id))
  {
    var st' := StepPut(st, t, s, id);
    var log := st.sessions[s].enqueued;
    EnqueuedStaysLocal(st.sessions[s], Command(id));
    assert st'.sessions[s].enqueued[..|log|] == log;
    AttendsRest(st, st', t, {});
    SessionStepKeeps(st, st', t, s, {});
  }

  /** Once the sentinel is in the queue, no future of the session is pending or left to the closer. */
  lemma NotBehindSentinel(st: State, s: SessionId, id: CommandId)
    requires Inv(st) && Has(st, s, id) && Sentinel in st.sessions[s].enqueued
    ensures Escaped(st.futures[id]) || st.futures[id].custody.Dropped?
  {
    var i :| 0 <= i < |st.sessions[s].enqueued| && st.sessions[s].enqueued[i] == Sentinel;
    assert SeeMessage(s, i);
    assert SeeSession(s);
    LookFuture(st, id);
    if st.futures[id].custody.Taken? { assert SeeThread(st.futures[id].custody.holder); }
  }

  lemma WaitKeeps(st: State, t: ThreadId, s: SessionId, id: CommandId)
    requires Inv(st) && At(st, t, DispatchWait(s, id))
    ensures Inv(StepWait(st, t, s, id))
  {
    assert SeeThread(t);
    LookFuture(st, id);
    match st.futures[id].outcome
    case Incomplete =>
    case Delivered(r, _) => MoveKeeps(st, t, Done(Answered(s, id, r)));
    case Failed => MoveKeeps(st, t, Done(Disconnected(s, id)));
  }

  lemma ExpireKeeps(st: State, t: ThreadId)
    requires Inv(st)
    ensures Inv(StepExpire(st, t))
  {
    if StepExpire(st, t) != st {
      assert SeeThread(t);
      MoveKeeps(st, t, DispatchExpired(st.threads[t].s, st.threads[t].id));
    }
  }

  lemma DropKeeps(st: State, t: ThreadId, s: SessionId, id: CommandId)
    requires Inv(st) && At(st, t, DispatchExpired(s, id))
    ensures Inv(StepDrop(st, t, s, id))
  {
    assert SeeThread(t); assert SeeSession(s);
    LookFuture(st, id);
    if id !in st.sessions[s].core.pending {
      MoveKeeps(st, t, Done(TimedOut(s, id)));
    } else {
      DropPendingKeeps(st, t, s, id);
    }
  }

  lemma DropPendingKeeps(st: State, t: ThreadId, s: SessionId, id: CommandId)
    requires Inv(st) && At(st, t, DispatchExpired(s, id)) && Mine(st, t, s, id) && id in st.sessions[s].core.pending
    requires SessionOk(st, s, st.sessions[s]) && FutureOk(st, id, st.futures[id])
    ensures Inv(StepDrop(st, t, s, id))
  {
    var st' := StepDrop(st, t, s, id);
    PoppedStaysLocal(st.sessions[s], id);
    AttendsRest(st, st', t, {id});
    OneFuture(st, st', t, s, id);
    SessionStepKeeps(st, st', t, s, {id});
  }

  lemma CheckKeeps(st: State, t: ThreadId, s: SessionId, id: CommandId, r: Payload)
    requires Inv(st) && At(st, t, ResolveCheck(s, id, r))
    ensures Inv(StepCheck(st, t, s, id, r))
  {
    assert SeeThread(t);
    var loc := st.sessions[s].location;
    MoveKeeps(st, t, if loc in st.registry && st.registry[loc] == s then ResolvePop(s, id, r) else Done(Ignored));
  }

  lemma PopKeeps(st: State, t: ThreadId, s: SessionId, id: CommandId, r: Payload)
    requires Inv(st) && At(st, t, ResolvePop(s, id, r))
    ensures Inv(StepPop(st, t, s, id, r))
  {
    assert SeeThread(t); assert SeeSession(s);
    if id !in st.sessions[s].core.pending {
      MoveKeeps(st, t, Done(Ignored));
    } else {
      LookFuture(st, id);
      PopPendingKeeps(st, t, s, id, r);
    }
  }

  lemma PopPendingKeeps(st: State, t: ThreadId, s: SessionId, id: CommandId, r: Payload)
    requires Inv(st) && At(st, t, ResolvePop(s, id, r)) && Has(st, s, id) && id in st.sessions[s].core.pending
    requires SessionOk(st, s, st.sessions[s]) && FutureOk(st, id, st.futures[id])
    ensures Inv(StepPop(st, t, s, id, r))
  {
    var st' := StepPop(st, t, s, id, r);
    PoppedStaysLocal(st.sessions[s], id);
    AttendsRest(st, st', t, {id});
    OneFuture(st, st', t, s, id);
    SessionStepKeeps(st, st', t, s, {id});
  }

  lemma SetKeeps(st: State, t: ThreadId, s: SessionId, id: CommandId, r: Payload)
    requires Inv(st) && At(st, t, ResolveSet(s, id, r))
    ensures Inv(StepSet(st, t, s, id, r))
  {
    assert SeeThread(t); assert SeeSession(s);
    LookFuture(st, id);
    SetTakenKeeps(st, t, s, id, r);
  }

  lemma SetTakenKeeps(st: State, t: ThreadId, s: SessionId, id: CommandId, r: Payload)
    requires Inv(st) && At(st, t, ResolveSet(s, id, r)) && Has(st, s, id)
             && st.futures[id].custody == Taken(Resolver, t)
    requires SessionOk(st, s, st.sessions[s]) && FutureOk(st, id, st.futures[id])
    ensures Inv(StepSet(st, t, s, id, r))
  {
    var st' := StepSet(st, t, s, id, r);
    AttendsRest(st, st', t, {id});
    OneFuture(st, st', t, s, id);
    SessionStepKeeps(st, st', t, s, {id});
  }

  lemma NewKeeps(st: State, t: ThreadId, loc: LocationId, s: SessionId)
    requires Inv(st) && At(st, t, RegisterNew(loc))
    ensures Inv(StepNew(st, t, loc, s))
  {
    if s !in st.sessions {
      var st' := StepNew(st, t, loc, s);
      AttendsRest(st, st', t, {});
      SameEntries(st, st', {s});
      Keeps(st, st', t, {s}, {});
    }
  }

  lemma InstallKeeps(st: State, t: ThreadId, s: SessionId)
    requires Inv(st) && At(st, t, RegisterInstall(s))
    ensures Inv(StepInstall(st, t, s))
  {
    var st' := StepInstall(st, t, s);
    assert SeeThread(t);
    var loc := st.sessions[s].location;
    var ss := if loc in st.registry then {s, st.registry[loc]} else {s};
    AttendsRest(st, st', t, {});
    EntriesAfterInstall(st, st', t, s, ss);
    InstalledSessions(st, st', t, s, ss);
    InstallFrame(st, st', t, s, ss);
    Keeps(st, st', t, ss, {});
  }

  lemma InstallFrame(st: State, st': State, t: ThreadId, s: SessionId, ss: set<SessionId>)
    requires RegistryOk(st) && At(st, t, RegisterInstall(s)) && s in st.sessions
    requires st.sessions[s].keeper == Installing(t) && st' == StepInstall(st, t, s)
    requires var loc := st.sessions[s].location; ss == if loc in st.registry then {s, st.registry[loc]} else {s}
    ensures Frame(st, st', t, ss, {}) && StillPending(st, st', ss, {}) && NewMessages(st, st', ss)
  {
    assert SeeEntry(st.sessions[s].location);
    InstallMovesSessions(st, st', t, s, ss);
    InstallMovesEntries(st, st', t, s, ss);
  }

  lemma InstallMovesSessions(st: State, st': State, t: ThreadId, s: SessionId, ss: set<SessionId>)
    requires At(st, t, RegisterInstall(s)) && s in st.sessions
    requires st.sessions[s].keeper == Installing(t) && st' == StepInstall(st, t, s)
    requires var loc := st.sessions[s].location;
             ss == (if loc in st.registry then {s, st.registry[loc]} else {s})
             && (loc in st.registry ==> EntryOk(st, loc, st.registry[loc]))
    ensures OldSessions(st, st', t, ss) && NewSessions(st, st', ss)
    ensures StillPending(st, st', ss, {}) && NewMessages(st, st', ss)
  {
    forall x | x in st.sessions
      ensures x in st'.sessions
      ensures st'.sessions[x].core == st.sessions[x].core && st'.sessions[x].enqueued == st.sessions[x].enqueued
      ensures x in ss ==> SessionMoves(st.sessions[x], st'.sessions[x], t)
      ensures x !in ss ==> st'.sessions[x] == st.sessions[x]
    {
    }
  }

  lemma InstallMovesEntries(st: State, st': State, t: ThreadId, s: SessionId, ss: set<SessionId>)
    requires s in st.sessions && st' == StepInstall(st, t, s)
    requires var loc := st.sessions[s].location; ss == if loc in st.registry then {s, st.registry[loc]} else {s}
    ensures OldEntries(st, st', ss) && NewEntries(st, st', ss)
  {
    assert st'.registry == st.registry[st.sessions[s].location := s];
  }

  lemma EntriesAfterInstall(st: State, st': State, t: ThreadId, s: SessionId, ss: set<SessionId>)
    requires RegistryOk(st) && s in st.sessions && st.sessions[s].keeper.Installing? && st' == StepInstall(st, t, s)
    requires var loc := st.sessions[s].location; ss == if loc in st.registry then {s, st.registry[loc]} else {s}
    ensures TouchedEntries(st', ss)
  {
    assert SeeEntry(st.sessions[s].location);
    forall loc | loc in st'.registry && st'.registry[loc] in ss ensures EntryOk(st', loc, st'.registry[loc]) {
      assert SeeEntry(loc);
    }
  }

  lemma InstalledSessions(st: State, st': State, t: ThreadId, s: SessionId, ss: set<SessionId>)
    requires RegistryOk(st) && SessionsOk(st) && At(st, t, RegisterInstall(s)) && s in st.sessions
    requires st.sessions[s].keeper == Installing(t) && st' == StepInstall(st, t, s)
    requires var loc := st.sessions[s].location; ss == if loc in st.registry then {s, st.registry[loc]} else {s}
    ensures TouchedSessions(st', ss) && ThreadOk(st', t, st'.threads[t])
  {
    assert SeeEntry(st.sessions[s].location);
    forall x | x in ss ensures x in st'.sessions && SessionOk(st', x, st'.sessions[x]) {
      assert SeeSession(x);
    }
  }

  lemma UnregisterKeeps(st: State, t: ThreadId, s: SessionId)
    requires Inv(st) && At(st, t, UnregisterLock(s))
    ensures Inv(StepUnregister(st, t, s))
  {
    assert SeeThread(t); assert SeeSession(s);
    var loc := st.sessions[s].location;
    if loc in st.registry && st.registry[loc] == s {
      UnregisterOwnKeeps(st, t, s);
    } else {
      MoveKeeps(st, t, CloseLock(s));
    }
  }

  lemma UnregisterOwnKeeps(st: State, t: ThreadId, s: SessionId)
    requires Inv(st) && At(st, t, UnregisterLock(s)) && HasInstalled(st, s) && SessionOk(st, s, st.sessions[s])
    requires var loc := st.sessions[s].location; loc in st.registry && st.registry[loc] == s
    ensures Inv(StepUnregister(st, t, s))
  {
    var st' := StepUnregister(st, t, s);
    assert SeeEntry(st.sessions[s].location);
    AttendsRest(st, st', t, {});
    assert SessionMoves(st.sessions[s], st'.sessions[s], t);
    OneSession(st, st', t, s);
    assert TouchedSessions(st', {s});
    EntriesAfterUnregister(st, st', s);
    Keeps(st, st', t, {s}, {});
  }

  lemma EntriesAfterUnregister(st: State, st': State, s: SessionId)
    requires RegistryOk(st) && s in st.sessions
    requires var loc := st.sessions[s].location; st'.registry == st.registry - {loc}
    ensures TouchedEntries(st', {s})
  {
    forall loc | loc in st'.registry ensures st'.registry[loc] != s {
      assert SeeEntry(loc);
    }
  }

  lemma CloseKeeps(st: State, t: ThreadId, s: SessionId)
    requires Inv(st) && At(st, t, CloseLock(s))
    ensures Inv(StepClose(st, t, s))
  {
    var st' := StepClose(st, t, s);
    assert SeeThread(t); assert SeeSession(s);
    if st.sessions[s].core.closed {
      MoveKeeps(st, t, Done(Finished));
    } else {
      var ids := st.sessions[s].core.pending;
      OpenHasNoSentinel(st, s);
      AttendsRest(st, st', t, ids);
      SeizedFutures(st, st', t, s);
      SessionStepKeeps(st, st', t, s, ids);
    }
  }

  lemma SeizedFutures(st: State, st': State, t: ThreadId, s: SessionId)
    requires FuturesOk(st) && s in st.sessions && SessionOk(st, s, st.sessions[s]) && !st.sessions[s].core.closed
    requires At(st, t, CloseLock(s)) && st' == StepClose(st, t, s)
    ensures OldFutures(st, st', t, {s}, st.sessions[s].core.pending)
    ensures TouchedFutures(st', st.sessions[s].core.pending)
  {
    forall id | id in st.sessions[s].core.pending ensures id in st'.futures && FutureOk(st', id, st'.futures[id]) {
      LookFuture(st, id);
    }
    forall id | id in st.futures
      ensures id in st'.futures
      ensures id in st.sessions[s].core.pending ==>
                FutureMoves(st.futures[id], st'.futures[id], t) && st.futures[id].session in {s}
      ensures id !in st.sessions[s].core.pending ==> st'.futures[id] == st.futures[id]
    {
    }
  }

  lemma FailKeeps(st: State, t: ThreadId, s: SessionId, rest: set<CommandId>, id: CommandId)
    requires Inv(st) && At(st, t, CloseFail(s, rest))
    ensures Inv(StepFail(st, t, s, rest, id))
  {
    assert SeeThread(t);
    if rest == {} {
      SentinelKeeps(st, t, s);
    } else if id in rest {
      assert SeeSession(s);
      LookFuture(st, id);
      FailTakenKeeps(st, t, s, rest, id);
    }
  }

  lemma FailTakenKeeps(st: State, t: ThreadId, s: SessionId, rest: set<CommandId>, id: CommandId)
    requires Inv(st) && At(st, t, CloseFail(s, rest)) && ThreadOk(st, t, CloseFail(s, rest)) && id in rest
    requires SessionOk(st, s, st.sessions[s]) && FutureOk(st, id, st.futures[id])
    ensures Inv(StepFail(st, t, s, rest, id))
  {
    var st' := StepFail(st, t, s, rest, id);
    AttendsRest(st, st', t, {id});
    OneFuture(st, st', t, s, id);
    SessionStepKeeps(st, st', t, s, {id});
  }

  lemma SentinelKeeps(st: State, t: ThreadId, s: SessionId)
    requires Inv(st) && At(st, t, CloseFail(s, {})) && ThreadOk(st, t, CloseFail(s, {}))
    ensures Inv(StepFail(st, t, s, {}, 0))
  {
    var st' := StepFail(st, t, s, {}, 0);
    assert SeeSession(s);
    EnqueuedStaysLocal(st.sessions[s], Sentinel);
    AttendsRest(st, st', t, {});
    var log := st.sessions[s].enqueued;
    assert st'.sessions[s].enqueued[..|log|] == log;
    SessionStepKeeps(st, st', t, s, {});
  }

  /** The outbound half touches one session and moves no thread. */
  lemma LoopKeeps(st: State, st': State, s: SessionId)
    requires Inv(st) && s in st.sessions && s in st'.sessions && st' == SetSession(st, s, st'.sessions[s])
    requires LocalOk(st'.sessions[s])
    requires st'.sessions[s] == st.sessions[s].(core := st'.sessions[s].core, looping := st'.sessions[s].looping,
                                                sender := st'.sessions[s].sender, sent := st'.sessions[s].sent)
    requires st'.sessions[s].core.pending == st.sessions[s].core.pending
    requires st'.sessions[s].core.closed == st.sessions[s].core.closed
    ensures Inv(st')
  {
    assert SeeSession(s);
    forall t | t in st'.threads ensures ThreadOk(st', t, st'.threads[t]) { assert SeeThread(t); }
    forall j | j in st'.futures ensures FutureOk(st', j, st'.futures[j]) { assert SeeFuture(j); }
    forall x | x in st'.sessions ensures SessionOk(st', x, st'.sessions[x]) { assert SeeSession(x); }
    forall loc | loc in st'.registry ensures EntryOk(st', loc, st'.registry[loc]) { assert SeeEntry(loc); }
    forall x, i | x in st'.sessions && 0 <= i < |st'.sessions[x].enqueued| ensures MessageOk(st', x, i) {
      assert SeeMessage(x, i);
    }
    forall j | j !in st'.futures ensures st'.completions[j] == 0 && st'.acks[j] == 0 { assert SeeFuture(j); }
  }

  lemma DequeueKeeps(st: State, s: SessionId)
    requires Inv(st)
    ensures Inv(StepDequeue(st, s))
  {
    if StepDequeue(st, s) != st {
      assert SeeSession(s);
      LoopKeeps(st, StepDequeue(st, s), s);
    }
  }

  lemma SentStaysLocal(session: Session)
    requires LocalOk(session) && session.sender.Holding?
    ensures session.sender.m.Sentinel? ==> LocalOk(session.(looping := false))
    ensures session.sender.m.Command? ==>
            LocalOk(session.(sender := Receiving, sent := session.sent + [session.sender.m]))
  {
    assert session.sent + [session.sender.m] + [] == session.sent + [session.sender.m];
  }

  lemma SendKeeps(st: State, s: SessionId)
    requires Inv(st)
    ensures Inv(StepSend(st, s))
  {
    if s in st.sessions && st.sessions[s].looping && st.sessions[s].sender.Holding? {
      assert SeeSession(s);
      SentStaysLocal(st.sessions[s]);
      LoopKeeps(st, StepSend(st, s), s);
    }
  }

  lemma LeaveKeeps(st: State, s: SessionId)
    requires Inv(st)
    ensures Inv(StepLeave(st, s))
  {
    if s in st.sessions {
      assert SeeSession(s);
      LoopKeeps(st, StepLeave(st, s), s);
    }
  }

  lemma StepKeeps(st: State, a: Action)
    requires Inv(st)
    ensures Inv(Step(st, a))
  {
    match a
    case Spawn(t, call) => if t !in st.threads && MayStart(st, call) { SpawnKeeps(st, t, call); }
    case Go(t, choice) => if t in st.threads { GoKeeps(st, t, choice); }
    case Expire(t) => ExpireKeeps(st, t);
    case Dequeue(s) => DequeueKeeps(st, s);
    case Send(s) => SendKeeps(st, s);
    case LeaveLoop(s) => LeaveKeeps(st, s);
  }

  lemma GoKeeps(st: State, t: ThreadId, choice: nat)
    requires Inv(st) && t in st.threads
    ensures Inv(StepThread(st, t, choice))
  {
    match st.threads[t]
    case DispatchLookup(loc) => LookupKeeps(st, t, loc);
    case DispatchEnlist(s) => EnlistKeeps(st, t, s, choice);
    case DispatchPut(s, id) => PutKeeps(st, t, s, id);
    case DispatchWait(s, id) => WaitKeeps(st, t, s, id);
    case DispatchExpired(s, id) => DropKeeps(st, t, s, id);
    case ResolveCheck(s, id, r) => CheckKeeps(st, t, s, id, r);
    case ResolvePop(s, id, r) => PopKeeps(st, t, s, id, r);
    case ResolveSet(s, id, r) => SetKeeps(st, t, s, id, r);
    case RegisterNew(loc) => NewKeeps(st, t, loc, choice);
    case RegisterInstall(s) => InstallKeeps(st, t, s);
    case UnregisterLock(s) => UnregisterKeeps(st, t, s);
    case CloseLock(s) => CloseKeeps(st, t, s);
    case CloseFail(s, rest) => FailKeeps(st, t, s, rest, choice);
    case Done(_) =>
  }

  /** Every state of every run is in order. */
  lemma {:induction false} RunKeeps(st: State, acts: seq<Action>)
    requires Inv(st)
    ensures Inv(Run(st, acts))
    decreases |acts|
  {
    if acts != [] {
      StepKeeps(st, acts[0]);
      RunKeeps(Step(st, acts[0]), acts[1..]);
    }
  }
}
