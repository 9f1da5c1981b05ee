/** What gets into a session's queue, and what comes out of it: every dispatch is queued once, every close
    ends with one sentinel, and from there the message loop sends what is before it and stops. */
module LiveQueue {
  import opened Wrappers
  import opened SessionCore
  import opened LiveProtocol
  import opened LiveInvariant
  import opened LiveMoves
  import opened LiveSteps
  import opened LiveTheorems

  // ----- what is queued ----------------------------------------------------------------------------

  /** Thread `t` has closed `s` and has not put the sentinel yet. */
  predicate Closing(st: State, t: ThreadId, s: SessionId) {
    t in st.threads && st.threads[t].CloseFail? && st.threads[t].s == s
  }

  /** A closed session has its sentinel in the queue, or its closer still has to put it there. */
  predicate EndsQueue(st: State, s: SessionId)
    requires s in st.sessions
  {
    var session := st.sessions[s];
    session.core.closed ==>
      Sentinel in session.enqueued || (session.closer.Some? && Closing(st, session.closer.value, s))
  }

  /** The dispatch of `id` on `s` has put its payload in the queue. */
  predicate HasPut(st: State, s: SessionId, id: CommandId) {
    && Has(st, s, id)
    && !(st.futures[id].dispatcher in st.threads && st.threads[st.futures[id].dispatcher] == DispatchPut(s, id))
  }

  /** A payload is in the queue's log once from when its dispatch put it there, and in no other. */
  predicate QueuedOnce(st: State, s: SessionId, id: CommandId)
    requires s in st.sessions
  {
    multiset(st.sessions[s].enqueued)[Command(id)] == if HasPut(st, s, id) then 1 else 0
  }

  ghost predicate QueueOk(st: State, s: SessionId) {
    s in st.sessions && EndsQueue(st, s) && forall id :: QueuedOnce(st, s, id)
  }

  ghost predicate QueuesOk(st: State) {
    forall s | s in st.sessions :: QueueOk(st, s)
  }

  // ----- no step breaks it -------------------------------------------------------------------------

  lemma LogGrows(a: seq<Message>, m: Message, x: Message)
    ensures multiset(a + [m])[x] == multiset(a)[x] + (if m == x then 1 else 0)
  {
    assert multiset(a + [m]) == multiset(a) + multiset{m};
  }

  predicate SameLog(a: Session, b: Session) {
    b.enqueued == a.enqueued && b.closer == a.closer && b.core.closed == a.core.closed
  }

  /** A session whose log and closing the step leaves alone, while the mover is nowhere that matters to it. */
  lemma SameLogStaysOk(st: State, st': State, s: SessionId)
    requires QueueOk(st, s) && s in st'.sessions && SameLog(st.sessions[s], st'.sessions[s])
    requires forall t | Closing(st, t, s) :: Closing(st', t, s)
    requires forall id :: HasPut(st', s, id) <==> HasPut(st, s, id)
    ensures QueueOk(st', s)
  {
    forall id ensures QueuedOnce(st', s, id) { assert QueuedOnce(st, s, id); }
  }

  /** Futures are neither made nor handed on. */
  predicate SameFutures(st: State, st': State) {
    && st'.futures.Keys == st.futures.Keys
    && forall id | id in st.futures ::
         st'.futures[id].session == st.futures[id].session && st'.futures[id].dispatcher == st.futures[id].dispatcher
  }

  /** Nor does the mover come from a put or go to one: no dispatch has put its payload that had not before. */
  lemma SamePuts(st: State, st': State, t: ThreadId, s: SessionId)
    requires s in st.sessions && s in st'.sessions && OnlyMoves(st, st', t) && SameFutures(st, st')
    requires t in st.threads ==> !st.threads[t].DispatchPut?
    requires !st'.threads[t].DispatchPut?
    ensures forall id :: HasPut(st', s, id) <==> HasPut(st, s, id)
  {
  }

  /** A thread that stands nowhere in a dispatch after its registration has no future of its own. */
  lemma NoFutureYet(st: State, t: ThreadId, id: CommandId)
    requires FuturesOk(st) && t in st.threads && id in st.futures && st.futures[id].dispatcher == t
    ensures Dispatching(st.threads[t], st.futures[id].session, id)
  {
    LookFuture(st, id);
  }

  lemma EnlistKeepsQueue(st: State, t: ThreadId, s: SessionId, id: CommandId, x: SessionId)
    requires FuturesOk(st) && At(st, t, DispatchEnlist(s)) && QueueOk(st, x)
    ensures QueueOk(StepEnlist(st, t, s, id), x)
  {
    var st' := StepEnlist(st, t, s, id);
    forall j ensures HasPut(st', x, j) <==> HasPut(st, x, j) {
      if j in st.futures && st.futures[j].dispatcher == t { NoFutureYet(st, t, j); }
    }
    SameLogStaysOk(st, st', x);
  }

  lemma PutKeepsQueue(st: State, t: ThreadId, s: SessionId, id: CommandId, x: SessionId)
    requires FuturesOk(st) && At(st, t, DispatchPut(s, id)) && Mine(st, t, s, id) && QueueOk(st, x)
    ensures QueueOk(StepPut(st, t, s, id), x)
  {
    forall j ensures QueuedOnce(StepPut(st, t, s, id), x, j) {
      assert QueuedOnce(st, x, j);
      if x == s { LogGrows(st.sessions[s].enqueued, Command(id), Command(j)); }
      if j in st.futures && st.futures[j].dispatcher == t { NoFutureYet(st, t, j); }
    }
  }

  lemma CloseKeepsQueue(st: State, t: ThreadId, s: SessionId, x: SessionId)
    requires At(st, t, CloseLock(s)) && QueueOk(st, x)
    ensures QueueOk(StepClose(st, t, s), x)
  {
    var st' := StepClose(st, t, s);
    if st' != st { SamePuts(st, st', t, x); }
    if x == s && !st.sessions[s].core.closed {
      forall j ensures QueuedOnce(st', x, j) { assert QueuedOnce(st, x, j); }
    } else {
      SameLogStaysOk(st, st', x);
    }
  }

  lemma FailKeepsQueue(st: State, t: ThreadId, s: SessionId, rest: set<CommandId>, id: CommandId, x: SessionId)
    requires At(st, t, CloseFail(s, rest)) && QueueOk(st, x)
    ensures QueueOk(StepFail(st, t, s, rest, id), x)
  {
    var st' := StepFail(st, t, s, rest, id);
    if st' != st { SamePuts(st, st', t, x); }
    if x == s && rest == {} {
      SentinelKeepsQueue(st, st', s);
    } else {
      SameLogStaysOk(st, st', x);
    }
  }

  lemma SentinelKeepsQueue(st: State, st': State, s: SessionId)
    requires QueueOk(st, s) && s in st'.sessions && st'.sessions[s].enqueued == st.sessions[s].enqueued + [Sentinel]
    requires forall id :: HasPut(st', s, id) <==> HasPut(st, s, id)
    ensures QueueOk(st', s)
  {
    forall j ensures QueuedOnce(st', s, j) {
      assert QueuedOnce(st, s, j);
      LogGrows(st.sessions[s].enqueued, Sentinel, Command(j));
    }
    assert st'.sessions[s].enqueued[|st.sessions[s].enqueued|] == Sentinel;
  }

  lemma NewKeepsQueue(st: State, t: ThreadId, loc: LocationId, s: SessionId, x: SessionId)
    requires FuturesOk(st) && At(st, t, RegisterNew(loc)) && x in StepNew(st, t, loc, s).sessions
    requires x in st.sessions ==> QueueOk(st, x)
    ensures QueueOk(StepNew(st, t, loc, s), x)
  {
    var st' := StepNew(st, t, loc, s);
    if x in st.sessions {
      if st' != st { SamePuts(st, st', t, x); }
      SameLogStaysOk(st, st', x);
    } else {
      forall j ensures !HasPut(st', x, j) { if j in st.futures { LookFuture(st, j); } }
    }
  }

  /** A step that neither queues, nor closes, nor makes a future or a session. */
  ghost predicate Silent(st: State, st': State, t: ThreadId) {
    && OnlyMoves(st, st', t) && !st'.threads[t].DispatchPut? && SameFutures(st, st')
    && st'.sessions.Keys == st.sessions.Keys
    && forall x | x in st.sessions :: SameLog(st.sessions[x], st'.sessions[x])
  }

  lemma SilentKeepsQueues(st: State, st': State, t: ThreadId)
    requires QueuesOk(st) && Silent(st, st', t)
    requires t in st.threads ==> !st.threads[t].CloseFail? && !st.threads[t].DispatchPut?
    ensures QueuesOk(st')
  {
    forall x | x in st'.sessions ensures QueueOk(st', x) {
      assert QueueOk(st, x);
      SamePuts(st, st', t, x);
      SameLogStaysOk(st, st', x);
    }
  }

  lemma DropIsSilent(st: State, t: ThreadId, s: SessionId, id: CommandId)
    requires At(st, t, DispatchExpired(s, id))
    ensures Silent(st, StepDrop(st, t, s, id), t)
  {
  }

  lemma PopIsSilent(st: State, t: ThreadId, s: SessionId, id: CommandId, r: Payload)
    requires At(st, t, ResolvePop(s, id, r))
    ensures Silent(st, StepPop(st, t, s, id, r), t)
  {
  }

  lemma SetIsSilent(st: State, t: ThreadId, s: SessionId, id: CommandId, r: Payload)
    requires At(st, t, ResolveSet(s, id, r))
    ensures Silent(st, StepSet(st, t, s, id, r), t)
  {
  }

  lemma InstallIsSilent(st: State, t: ThreadId, s: SessionId)
    requires At(st, t, RegisterInstall(s))
    ensures Silent(st, StepInstall(st, t, s), t)
  {
  }

  lemma UnregisterIsSilent(st: State, t: ThreadId, s: SessionId)
    requires At(st, t, UnregisterLock(s))
    ensures Silent(st, StepUnregister(st, t, s), t)
  {
  }

  lemma LookIsSilent(st: State, t: ThreadId, choice: nat)
    requires t in st.threads
    requires var pc := st.threads[t]; pc.DispatchLookup? || pc.DispatchWait? || pc.ResolveCheck? || pc.Done?
    ensures Silent(st, StepThread(st, t, choice), t)
  {
  }

  lemma CallIsSilent(st: State, t: ThreadId, choice: nat)
    requires t in st.threads
    requires var pc := st.threads[t];
             !pc.DispatchEnlist? && !pc.DispatchPut? && !pc.CloseLock? && !pc.CloseFail? && !pc.RegisterNew?
    ensures Silent(st, StepThread(st, t, choice), t)
  {
    match st.threads[t]
    case DispatchExpired(s, id) => DropIsSilent(st, t, s, id);
    case ResolvePop(s, id, r) => PopIsSilent(st, t, s, id, r);
    case ResolveSet(s, id, r) => SetIsSilent(st, t, s, id, r);
    case RegisterInstall(s) => InstallIsSilent(st, t, s);
    case UnregisterLock(s) => UnregisterIsSilent(st, t, s);
    case _ => LookIsSilent(st, t, choice);
  }

  lemma CallKeepsQueue(st: State, t: ThreadId, choice: nat, x: SessionId)
    requires Inv(st) && t in st.threads && ThreadOk(st, t, st.threads[t])
    requires x in StepThread(st, t, choice).sessions && (x in st.sessions ==> QueueOk(st, x))
    requires var pc := st.threads[t];
             pc.DispatchEnlist? || pc.DispatchPut? || pc.CloseLock? || pc.CloseFail? || pc.RegisterNew?
    ensures QueueOk(StepThread(st, t, choice), x)
  {
    match st.threads[t]
    case DispatchEnlist(s) => EnlistKeepsQueue(st, t, s, choice, x);
    case DispatchPut(s, id) => PutKeepsQueue(st, t, s, id, x);
    case CloseLock(s) => CloseKeepsQueue(st, t, s, x);
    case CloseFail(s, rest) => FailKeepsQueue(st, t, s, rest, choice, x);
    case RegisterNew(loc) => NewKeepsQueue(st, t, loc, choice, x);
  }

  lemma CallKeepsQueues(st: State, t: ThreadId, choice: nat)
    requires Inv(st) && QueuesOk(st) && t in st.threads
    ensures QueuesOk(StepThread(st, t, choice))
  {
    var pc := st.threads[t];
    if pc.DispatchEnlist? || pc.DispatchPut? || pc.CloseLock? || pc.CloseFail? || pc.RegisterNew? {
      assert SeeThread(t);
      forall x | x in StepThread(st, t, choice).sessions ensures QueueOk(StepThread(st, t, choice), x) {
        CallKeepsQueue(st, t, choice, x);
      }
    } else {
      CallIsSilent(st, t, choice);
      SilentKeepsQueues(st, StepThread(st, t, choice), t);
    }
  }

  /** The message loop leaves the log of what was queued alone. */
  lemma LoopKeepsQueues(st: State, st': State, s: SessionId)
    requires QueuesOk(st) && s in st.sessions && s in st'.sessions && st' == SetSession(st, s, st'.sessions[s])
    requires SameLog(st.sessions[s], st'.sessions[s])
    ensures QueuesOk(st')
  {
    forall x | x in st'.sessions ensures QueueOk(st', x) {
      assert QueueOk(st, x);
      SameLogStaysOk(st, st', x);
    }
  }

  lemma StepKeepsQueues(st: State, a: Action)
    requires Inv(st) && QueuesOk(st)
    ensures QueuesOk(Step(st, a))
  {
    match a
    case Spawn(t, call) => if t !in st.threads && MayStart(st, call) { SilentKeepsQueues(st, SetPc(st, t, call), t); }
    case Go(t, choice) => if t in st.threads { CallKeepsQueues(st, t, choice); }
    case Expire(t) => if StepExpire(st, t) != st { SilentKeepsQueues(st, StepExpire(st, t), t); }
    case Dequeue(s) => if StepDequeue(st, s) != st { LoopKeepsQueues(st, StepDequeue(st, s), s); }
    case Send(s) => if StepSend(st, s) != st { LoopKeepsQueues(st, StepSend(st, s), s); }
    case LeaveLoop(s) => if s in st.sessions { LoopKeepsQueues(st, StepLeave(st, s), s); }
  }

  lemma {:induction false} RunKeepsQueues(st: State, acts: seq<Action>)
    requires Inv(st) && QueuesOk(st)
    ensures QueuesOk(Run(st, acts))
    decreases |acts|
  {
    if acts != [] {
      StepKeepsQueues(st, acts[0]);
      StepKeeps(st, acts[0]);
      RunKeepsQueues(Step(st, acts[0]), acts[1..]);
    }
  }

  // ----- over whole runs -----------------------------------------------------------------------------

  /** Once nobody is between closing a session and putting its sentinel, a session is closed if and only if its
      queue was given the sentinel, and it was given exactly one. */
  lemma CloseQueuesTheSentinel(acts: seq<Action>, s: SessionId)
    requires s in After(acts).sessions && forall t :: !Closing(After(acts), t, s)
    ensures var session := After(acts).sessions[s];
            multiset(session.enqueued)[Sentinel] == if session.core.closed then 1 else 0
  {
    RunKeepsQueues(START, acts);
    InOrder(acts);
    var log := After(acts).sessions[s].enqueued;
    assert QueueOk(After(acts), s);
    if After(acts).sessions[s].core.closed {
      var i :| 0 <= i < |log| && log[i] == Sentinel;
      forall j | 0 <= j < |log| && log[j] == Sentinel ensures j == i {
        if i <= j { OneSentinel(acts, s, i, j); } else { OneSentinel(acts, s, j, i); }
      }
      OneCounts(log, Sentinel, i);
    } else {
      OpenHasNoSentinel(After(acts), s);
    }
  }

  lemma OneCounts(log: seq<Message>, m: Message, i: nat)
    requires i < |log| && log[i] == m && forall j | 0 <= j < |log| && log[j] == m :: j == i
    ensures multiset(log)[m] == 1
  {
    assert log == log[..i] + [m] + log[i + 1..];
    assert m !in log[..i];
    assert m !in log[i + 1..];
  }

  /** A dispatch that has got past its put, to its wait or to any end of it, has its payload in the queue's log
      exactly once, whatever was queued before and since. */
  lemma DispatchIsQueuedOnce(acts: seq<Action>, id: CommandId)
    requires id in After(acts).futures
    ensures var st := After(acts); var f := st.futures[id];
            && f.session in st.sessions && f.dispatcher in st.threads
            && multiset(st.sessions[f.session].enqueued)[Command(id)]
                 == if st.threads[f.dispatcher] == DispatchPut(f.session, id) then 0 else 1
  {
    RunKeepsQueues(START, acts);
    InOrder(acts);
    LookFuture(After(acts), id);
    assert QueueOk(After(acts), After(acts).futures[id].session);
    assert QueuedOnce(After(acts), After(acts).futures[id].session, id);
  }

  // ----- the loop drains the queue ---------------------------------------------------------------------

  /** The message loop of `s`, left to itself. */
  predicate OnlyLoop(acts: seq<Action>, s: SessionId) {
    forall a | a in acts :: a == Dequeue(s) || a == Send(s)
  }

  /** The loop has sent exactly what was queued before the sentinel, and has stopped at it. */
  predicate Drained(session: Session) {
    !session.looping && session.sent + [Sentinel] <= session.enqueued
  }

  ghost predicate Draining(st: State, s: SessionId) {
    && s in st.sessions && st.sessions[s].looping && LocalOk(st.sessions[s]) && Sentinel in st.sessions[s].enqueued
  }

  lemma {:induction false} LoopDrains(st: State, s: SessionId) returns (later: seq<Action>)
    requires Draining(st, s)
    ensures OnlyLoop(later, s) && s in Run(st, later).sessions && Drained(Run(st, later).sessions[s])
    ensures Run(st, later).sessions[s].enqueued == st.sessions[s].enqueued
    ensures |later| <= 2 * |st.sessions[s].core.outbound| + |InHand(st.sessions[s].sender)|
    decreases 2 * |st.sessions[s].core.outbound| + |InHand(st.sessions[s].sender)|
  {
    var session := st.sessions[s];
    var a := if session.sender.Holding? then Send(s) else Dequeue(s);
    var st' := Step(st, a);
    if session.sender == Holding(Sentinel) {
      HeldSentinel(session);
      later := [a];
      assert Run(st, [a]) == Run(st', []);
    } else {
      LoopGoesOn(st, s);
      var rest := LoopDrains(st', s);
      later := [a] + rest;
      RunOne(st, a, rest);
    }
  }

  lemma HeldSentinel(session: Session)
    requires LocalOk(session) && session.sender == Holding(Sentinel)
    ensures session.sent + [Sentinel] <= session.enqueued
  {
  }

  /** While what is held is no sentinel the loop's next action gets closer to it. */
  lemma LoopGoesOn(st: State, s: SessionId)
    requires Draining(st, s) && st.sessions[s].sender != Holding(Sentinel)
    ensures var session := st.sessions[s];
            var st' := Step(st, if session.sender.Holding? then Send(s) else Dequeue(s));
            && Draining(st', s) && st'.sessions[s].enqueued == session.enqueued
            && 2 * |st'.sessions[s].core.outbound| + |InHand(st'.sessions[s].sender)|
                 < 2 * |session.core.outbound| + |InHand(session.sender)|
  {
    var session := st.sessions[s];
    if session.sender.Receiving? {
      assert session.sent + [] + session.core.outbound == session.sent + session.core.outbound;
      assert session.core.outbound != [];
      TakesNext(session.sent, session.core.outbound);
    } else {
      SentStaysLocal(session);
    }
  }

  lemma TakesNext(sent: seq<Message>, outbound: seq<Message>)
    requires outbound != []
    ensures sent + [outbound[0]] + outbound[1..] == sent + [] + outbound
  {
  }

  /** From every run with a closed session whose closer is done and whose message loop is still running, the
      loop's own actions send all that was queued before the sentinel, in order, and end the loop. */
  lemma CloseDrains(acts: seq<Action>, s: SessionId)
    requires Closed(After(acts), s) && After(acts).sessions[s].looping
    requires forall t :: !Closing(After(acts), t, s)
    ensures exists later :: OnlyLoop(later, s) && s in After(acts + later).sessions
              && Drained(After(acts + later).sessions[s])
              && After(acts + later).sessions[s].enqueued == After(acts).sessions[s].enqueued
  {
    InOrder(acts);
    assert SeeSession(s);
    RunKeepsQueues(START, acts);
    assert QueueOk(After(acts), s);
    var later := LoopDrains(After(acts), s);
    RunSplits(START, acts, later);
  }

  // ----- displaced sessions --------------------------------------------------------------------------

  /** The resolver has not looked yet, or has found the session displaced. */
  predicate Unheard(st: State, t: ThreadId, s: SessionId, id: CommandId, r: Payload) {
    At(st, t, ResolveCheck(s, id, r)) || At(st, t, Done(Ignored))
  }

  lemma StepStaysUnheard(st: State, a: Action, t: ThreadId, s: SessionId, id: CommandId, r: Payload)
    requires Displaced(st, s) && Unheard(st, t, s, id, r)
    ensures Unheard(Step(st, a), t, s, id, r)
  {
    match a
    case Go(u, choice) => if u in st.threads && u != t { StepMoves(st, u, choice); }
    case _ =>
  }

  lemma {:induction false} RunStaysUnheard(st: State, later: seq<Action>, t: ThreadId, s: SessionId, id: CommandId,
                                           r: Payload)
    requires Inv(st) && Displaced(st, s) && Unheard(st, t, s, id, r)
    ensures Unheard(Run(st, later), t, s, id, r)
    decreases |later|
  {
    if later != [] {
      StepStaysUnheard(st, later[0], t, s, id, r);
      StepKeepsDisplaced(st, later[0], s);
      StepKeeps(st, later[0]);
      RunStaysUnheard(Step(st, later[0]), later[1..], t, s, id, r);
    }
  }

  /** A result that is looked at only after its session was displaced or unregistered is ignored: whatever
      happens later the call does nothing but look, and once it has looked it has returned False. */
  lemma DisplacedResultIsIgnored(acts: seq<Action>, t: ThreadId, s: SessionId, id: CommandId, r: Payload,
                                 later: seq<Action>)
    requires Displaced(After(acts), s) && At(After(acts), t, ResolveCheck(s, id, r))
    ensures Unheard(After(acts + later), t, s, id, r)
    ensures At(After(acts + (later + [Go(t, 0)])), t, Done(Ignored))
  {
    InOrder(acts);
    RunSplits(START, acts, later);
    RunStaysUnheard(After(acts), later, t, s, id, r);
    RunSplits(START, acts, later + [Go(t, 0)]);
    RunSplits(After(acts), later, [Go(t, 0)]);
    RunOne(Run(After(acts), later), Go(t, 0), []);
    assert [Go(t, 0)] + [] == [Go(t, 0)];
    StaysDisplaced(After(acts), later, s);
  }

  /** `unregister` takes its session out of the registry in its first step, and out it stays. */
  lemma UnregisteredForGood(acts: seq<Action>, t: ThreadId, s: SessionId, later: seq<Action>)
    requires At(After(acts), t, UnregisterLock(s))
    ensures Displaced(After(acts + ([Go(t, 0)] + later)), s)
  {
    InOrder(acts);
    assert SeeThread(t);
    RunSplits(START, acts, [Go(t, 0)] + later);
    RunOne(After(acts), Go(t, 0), later);
    StepKeeps(After(acts), Go(t, 0));
    StaysDisplaced(Step(After(acts), Go(t, 0)), later, s);
  }
}
