/** What the live command protocol promises, for every run and so for every interleaving of any
    number of dispatchers, resolvers, timeouts, closers and registrations. */
module LiveTheorems {
  import opened SessionCore
  import opened LiveProtocol
  import opened LiveInvariant
  import opened LiveSteps
  import opened LiveMoves

  function After(acts: seq<Action>): State {
    Run(START, acts)
  }

  lemma InOrder(acts: seq<Action>)
    ensures Inv(After(acts))
  {
    RunKeeps(START, acts);
  }

  lemma {:induction false} RunSplits(st: State, before: seq<Action>, later: seq<Action>)
    ensures Run(st, before + later) == Run(Run(st, before), later)
    decreases |before|
  {
    if before == [] {
      assert before + later == later;
    } else {
      assert (before + later)[1..] == before[1..] + later;
      RunSplits(Step(st, before[0]), before[1..], later);
    }
  }

  // ----- completion ------------------------------------------------------------------------------

  /** No future is completed twice, and `resolve_result` returns True at most once for an id. */
  lemma CompletedAtMostOnce(acts: seq<Action>, id: CommandId)
    ensures After(acts).acks[id] <= After(acts).completions[id] <= 1
  {
    InOrder(acts);
    assert SeeFuture(id);
  }

  /** `set_result` and `set_exception` never find a future complete, so neither raises. */
  lemma CompletersFindItOpen(acts: seq<Action>, t: ThreadId, who: Remover, s: SessionId, id: CommandId)
    requires t in After(acts).threads && Holds(After(acts).threads[t], who, s, id)
    ensures id in After(acts).futures && After(acts).futures[id].outcome == Incomplete
  {
    InOrder(acts);
    assert SeeThread(t); assert SeeFuture(id);
  }

  /** A popped future is owned by one thread only, and no longer pending in any session. */
  lemma SoleOwner(acts: seq<Action>, t: ThreadId, who: Remover, s: SessionId, id: CommandId)
    requires t in After(acts).threads && Holds(After(acts).threads[t], who, s, id)
    ensures forall u, who', s' :: u in After(acts).threads && Holds(After(acts).threads[u], who', s', id) ==>
              u == t && who' == who && s' == s
    ensures forall x :: x in After(acts).sessions ==> id !in After(acts).sessions[x].core.pending
  {
    var st := After(acts);
    InOrder(acts);
    assert SeeThread(t);
    forall u, who', s' | u in st.threads && Holds(st.threads[u], who', s', id)
        ensures u == t && who' == who && s' == s {
      assert SeeThread(u);
    }
    forall x | x in st.sessions ensures id !in st.sessions[x].core.pending { assert SeeSession(x); }
  }

  // ----- accounting ------------------------------------------------------------------------------

  /** Every future that entered a pending map is still there or left it exactly once: popped by a
      resolver, cleared by the closer, or dropped after a timeout. */
  lemma NoFutureLost(acts: seq<Action>, s: SessionId)
    requires s in After(acts).sessions
    ensures var session := After(acts).sessions[s];
            session.counts.enlisted == |session.core.pending| + session.counts.resolved
                                       + session.counts.failed + session.counts.expired
  {
    InOrder(acts);
    assert SeeSession(s);
  }

  /** A dispatch call is still waiting, or it ended in the one way its future ended: with the result
      that was delivered, with the disconnect, or with its own timeout. */
  lemma DispatchEnds(acts: seq<Action>, id: CommandId)
    requires id in After(acts).futures
    ensures var st := After(acts); var f := st.futures[id];
            && f.dispatcher in st.threads
            && match st.threads[f.dispatcher]
               case Done(Answered(s, id', r)) => s == f.session && id' == id && f.outcome == Delivered(r, s)
                   && st.acks[id] == 1
               case Done(Disconnected(s, id')) =>
                 s == f.session && id' == id && f.outcome == Failed && st.acks[id] == 0
                 && s in st.sessions && st.sessions[s].core.closed
               case Done(TimedOut(s, id')) =>
                 s == f.session && id' == id && s in st.sessions && id !in st.sessions[s].core.pending
               case DispatchPut(s, id') => s == f.session && id' == id
               case DispatchWait(s, id') => s == f.session && id' == id
               case DispatchExpired(s, id') => s == f.session && id' == id
               case _ => false
  {
    var st := After(acts);
    InOrder(acts);
    assert SeeFuture(id);
    assert SeeThread(st.futures[id].dispatcher);
    assert SeeSession(st.futures[id].session);
  }

  lemma RunOne(st: State, a: Action, later: seq<Action>)
    ensures Run(st, [a] + later) == Run(Step(st, a), later)
  {
    assert ([a] + later)[1..] == later;
  }

  /** A future popped by the resolver `t` while the dispatcher `u` still waits for it. */
  predicate Racing(st: State, t: ThreadId, u: ThreadId, s: SessionId, id: CommandId, r: Payload) {
    && At(st, t, ResolveSet(s, id, r)) && At(st, u, DispatchWait(s, id))
    && s in st.sessions && id !in st.sessions[s].core.pending
    && id in st.futures && st.futures[id].outcome.Incomplete?
  }

  lemma ResolverFirst(st: State, t: ThreadId, u: ThreadId, s: SessionId, id: CommandId, r: Payload)
    requires Racing(st, t, u, s, id, r)
    ensures var st' := Run(st, [Go(t, 0), Go(u, 0)]);
            At(st', t, Done(Acked(s, id, r))) && At(st', u, Done(Answered(s, id, r)))
  {
    RunOne(st, Go(t, 0), [Go(u, 0)]);
    RunOne(Step(st, Go(t, 0)), Go(u, 0), []);
  }

  /** The wait has run out, and the resolver has not set the result yet. */
  predicate Expired(st: State, t: ThreadId, u: ThreadId, s: SessionId, id: CommandId, r: Payload) {
    && At(st, t, ResolveSet(s, id, r)) && At(st, u, DispatchExpired(s, id))
    && s in st.sessions && id !in st.sessions[s].core.pending && id in st.futures
  }

  lemma Expires(st: State, t: ThreadId, u: ThreadId, s: SessionId, id: CommandId, r: Payload)
    requires Racing(st, t, u, s, id, r)
    ensures Expired(Step(st, Expire(u)), t, u, s, id, r)
  {
  }

  lemma SetAndDropped(st: State, t: ThreadId, u: ThreadId, s: SessionId, id: CommandId, r: Payload)
    requires Expired(st, t, u, s, id, r)
    ensures var st' := Run(st, [Go(t, 0), Go(u, 0)]);
            At(st', t, Done(Acked(s, id, r))) && At(st', u, Done(TimedOut(s, id)))
  {
    RunOne(st, Go(t, 0), [Go(u, 0)]);
    RunOne(Step(st, Go(t, 0)), Go(u, 0), []);
  }

  lemma ExpiryFirst(st: State, t: ThreadId, u: ThreadId, s: SessionId, id: CommandId, r: Payload)
    requires Racing(st, t, u, s, id, r)
    ensures var st' := Run(st, [Expire(u), Go(t, 0), Go(u, 0)]);
            At(st', t, Done(Acked(s, id, r))) && At(st', u, Done(TimedOut(s, id)))
  {
    RunOne(st, Expire(u), [Go(t, 0), Go(u, 0)]);
    Expires(st, t, u, s, id, r);
    SetAndDropped(Step(st, Expire(u)), t, u, s, id, r);
  }

  /** What an acknowledgement promises, and what it does not. Once a resolver has popped the future a
      dispatcher waits on, the dispatcher returns that very result if the resolver moves first; if the
      wait expires first, the result is still accepted, yet the dispatch reports a timeout. */
  lemma AckedIsNotAnswered(acts: seq<Action>, t: ThreadId, u: ThreadId, s: SessionId, id: CommandId, r: Payload)
    requires At(After(acts), t, ResolveSet(s, id, r)) && At(After(acts), u, DispatchWait(s, id))
    ensures var st := After(acts + [Go(t, 0), Go(u, 0)]);
            At(st, t, Done(Acked(s, id, r))) && At(st, u, Done(Answered(s, id, r)))
    ensures var st := After(acts + [Expire(u), Go(t, 0), Go(u, 0)]);
            At(st, t, Done(Acked(s, id, r))) && At(st, u, Done(TimedOut(s, id)))
  {
    assert Racing(After(acts), t, u, s, id, r) by {
      InOrder(acts);
      assert SeeThread(t); assert SeeFuture(id); assert SeeSession(s);
    }
    RunSplits(START, acts, [Go(t, 0), Go(u, 0)]);
    ResolverFirst(After(acts), t, u, s, id, r);
    RunSplits(START, acts, [Expire(u), Go(t, 0), Go(u, 0)]);
    ExpiryFirst(After(acts), t, u, s, id, r);
  }

  // ----- a run into the race -----------------------------------------------------------------------

  /** An agent connects, a dispatch goes up to its wait, and a resolver up to its pop. */
  function ConnectRun(loc: LocationId, s: SessionId): seq<Action> {
    [Spawn(0, RegisterNew(loc))] + ([Go(0, s)] + ([Go(0, 0)] + []))
  }

  function DispatchRun(loc: LocationId, id: CommandId): seq<Action> {
    [Spawn(1, DispatchLookup(loc))] + ([Go(1, 0)] + ([Go(1, id)] + ([Go(1, 0)] + [])))
  }

  function ResolveRun(s: SessionId, id: CommandId, r: Payload): seq<Action> {
    [Spawn(2, ResolveCheck(s, id, r))] + ([Go(2, 0)] + ([Go(2, 0)] + []))
  }

  predicate Connected(st: State, loc: LocationId, s: SessionId, id: CommandId) {
    && HasInstalled(st, s) && st.sessions[s].location == loc && !st.sessions[s].core.closed
    && loc in st.registry && st.registry[loc] == s
    && id !in st.futures && 1 !in st.threads && 2 !in st.threads
  }

  predicate InWait(st: State, loc: LocationId, s: SessionId, id: CommandId) {
    && HasInstalled(st, s) && st.sessions[s].location == loc && id in st.sessions[s].core.pending
    && loc in st.registry && st.registry[loc] == s
    && id in st.futures && At(st, 1, DispatchWait(s, id)) && 2 !in st.threads
  }

  lemma Connects(loc: LocationId, s: SessionId, id: CommandId)
    ensures Connected(Run(START, ConnectRun(loc, s)), loc, s, id)
  {
    RunOne(START, Spawn(0, RegisterNew(loc)), [Go(0, s)] + ([Go(0, 0)] + []));
    var spawned := SetPc(START, 0, RegisterNew(loc));
    RunOne(spawned, Go(0, s), [Go(0, 0)] + []);
    RunOne(StepNew(spawned, 0, loc, s), Go(0, 0), []);
  }

  lemma Dispatches(st: State, loc: LocationId, s: SessionId, id: CommandId)
    requires Connected(st, loc, s, id)
    ensures InWait(Run(st, DispatchRun(loc, id)), loc, s, id)
  {
    RunOne(st, Spawn(1, DispatchLookup(loc)), [Go(1, 0)] + ([Go(1, id)] + ([Go(1, 0)] + [])));
    var spawned := SetPc(st, 1, DispatchLookup(loc));
    RunOne(spawned, Go(1, 0), [Go(1, id)] + ([Go(1, 0)] + []));
    Enlists(SetPc(spawned, 1, DispatchEnlist(s)), loc, s, id);
  }

  lemma Enlists(found: State, loc: LocationId, s: SessionId, id: CommandId)
    requires HasInstalled(found, s) && found.sessions[s].location == loc && !found.sessions[s].core.closed
    requires loc in found.registry && found.registry[loc] == s
    requires id !in found.futures && At(found, 1, DispatchEnlist(s)) && 2 !in found.threads
    ensures InWait(Run(found, [Go(1, id)] + ([Go(1, 0)] + [])), loc, s, id)
  {
    RunOne(found, Go(1, id), [Go(1, 0)] + []);
    RunOne(StepEnlist(found, 1, s, id), Go(1, 0), []);
  }

  lemma Pops(st: State, loc: LocationId, s: SessionId, id: CommandId, r: Payload)
    requires InWait(st, loc, s, id)
    ensures var st' := Run(st, ResolveRun(s, id, r));
            At(st', 2, ResolveSet(s, id, r)) && At(st', 1, DispatchWait(s, id))
  {
    RunOne(st, Spawn(2, ResolveCheck(s, id, r)), [Go(2, 0)] + ([Go(2, 0)] + []));
    var spawned := SetPc(st, 2, ResolveCheck(s, id, r));
    RunOne(spawned, Go(2, 0), [Go(2, 0)] + []);
    RunOne(SetPc(spawned, 2, ResolvePop(s, id, r)), Go(2, 0), []);
  }

  /** For any location, ids and payload a run leads to where the two orders part: ten actions. */
  lemma RaceIsReached(loc: LocationId, s: SessionId, id: CommandId, r: Payload)
    ensures var acts := ConnectRun(loc, s) + (DispatchRun(loc, id) + ResolveRun(s, id, r));
            && |acts| == 10
            && At(After(acts), 2, ResolveSet(s, id, r)) && At(After(acts), 1, DispatchWait(s, id))
  {
    RunSplits(START, ConnectRun(loc, s), DispatchRun(loc, id) + ResolveRun(s, id, r));
    Connects(loc, s, id);
    var connected := Run(START, ConnectRun(loc, s));
    RunSplits(connected, DispatchRun(loc, id), ResolveRun(s, id, r));
    Dispatches(connected, loc, s, id);
    Pops(Run(connected, DispatchRun(loc, id)), loc, s, id, r);
  }

  // ----- closing ---------------------------------------------------------------------------------

  predicate Closed(st: State, s: SessionId) {
    s in st.sessions && st.sessions[s].core.closed
  }

  lemma StepKeepsClosed(st: State, a: Action, s: SessionId)
    requires Closed(st, s)
    ensures Closed(Step(st, a), s)
  {
    match a
    case Go(t, choice) => if t in st.threads { StepMoves(st, t, choice); }
    case _ =>
  }

  lemma {:induction false} StaysClosed(st: State, later: seq<Action>, s: SessionId)
    requires Closed(st, s)
    ensures Closed(Run(st, later), s)
    decreases |later|
  {
    if later != [] {
      StepKeepsClosed(st, later[0], s);
      StaysClosed(Step(st, later[0]), later[1..], s);
    }
  }

  /** After the locked part of `close`, the pending map is empty for ever. */
  lemma ClosedForGood(acts: seq<Action>, later: seq<Action>, s: SessionId)
    requires Closed(After(acts), s)
    ensures Closed(After(acts + later), s) && After(acts + later).sessions[s].core.pending == {}
  {
    RunSplits(START, acts, later);
    StaysClosed(After(acts), later, s);
    InOrder(acts + later);
    assert SeeSession(s);
  }

  /** At most one sentinel is ever put in a queue, and only once the session is closed. */
  lemma OneSentinel(acts: seq<Action>, s: SessionId, i: nat, j: nat)
    requires s in After(acts).sessions && i <= j < |After(acts).sessions[s].enqueued|
    requires After(acts).sessions[s].enqueued[i] == After(acts).sessions[s].enqueued[j] == Sentinel
    ensures i == j && After(acts).sessions[s].core.closed
  {
    InOrder(acts);
    assert SeeMessage(s, i); assert SeeMessage(s, j);
  }

  /** A payload queued behind the sentinel, which nobody will send, strands no dispatcher: its future
      is complete, or popped by a resolver that has yet to complete it. */
  lemma BehindSentinel(acts: seq<Action>, s: SessionId, i: nat, j: nat)
    requires s in After(acts).sessions && i < j < |After(acts).sessions[s].enqueued|
    requires After(acts).sessions[s].enqueued[i] == Sentinel
    ensures var st := After(acts);
            && st.sessions[s].enqueued[j].Command?
            && var id := st.sessions[s].enqueued[j].id;
            && id in st.futures && st.futures[id].session == s && id !in st.sessions[s].core.pending
            && (st.futures[id].outcome != Incomplete
                || exists t :: t in st.threads && Holds(st.threads[t], Resolver, s, id))
  {
    var st := After(acts);
    InOrder(acts);
    assert SeeMessage(s, i); assert SeeMessage(s, j); assert SeeSession(s);
    assert st.sessions[s].enqueued[..j][i] == Sentinel;
    var id := st.sessions[s].enqueued[j].id;
    assert SeeFuture(id);
    if st.futures[id].custody.Taken? {
      assert Holds(st.threads[st.futures[id].custody.holder], Resolver, s, id);
    }
  }

  /** Closing strands nobody: once the session is closed and nobody is between popping one of its
      futures and completing it, every dispatcher still waiting on it finds its future complete. */
  lemma CloseStrandsNobody(acts: seq<Action>, s: SessionId, t: ThreadId, id: CommandId)
    requires Closed(After(acts), s) && t in After(acts).threads && After(acts).threads[t] == DispatchWait(s, id)
    requires forall u, who :: u in After(acts).threads ==> !Holds(After(acts).threads[u], who, s, id)
    ensures id in After(acts).futures && After(acts).futures[id].outcome != Incomplete
    ensures t in After(acts + [Go(t, 0)]).threads && After(acts + [Go(t, 0)]).threads[t].Done?
  {
    var st := After(acts);
    InOrder(acts);
    assert SeeThread(t); assert SeeFuture(id); assert SeeSession(s);
    RunSplits(START, acts, [Go(t, 0)]);
    assert Run(st, [Go(t, 0)]) == Run(Step(st, Go(t, 0)), []);
  }

  /** Whoever owns an incomplete future of a closed session can complete it in its very next step. */
  lemma OwnerCanFinish(acts: seq<Action>, s: SessionId, t: ThreadId, id: CommandId)
    requires Closed(After(acts), s) && t in After(acts).threads && After(acts).threads[t] == DispatchWait(s, id)
    requires id in After(acts).futures && After(acts).futures[id].outcome == Incomplete
    ensures exists u, choice :: id in After(acts + [Go(u, choice)]).futures
              && After(acts + [Go(u, choice)]).futures[id].outcome != Incomplete
  {
    var st := After(acts);
    InOrder(acts);
    assert SeeThread(t); assert SeeFuture(id); assert SeeSession(s);
    var u := st.futures[id].custody.holder;
    assert SeeThread(u);
    RunSplits(START, acts, [Go(u, id)]);
    assert Run(st, [Go(u, id)]) == Run(Step(st, Go(u, id)), []);
  }

  // ----- sessions do not mix ---------------------------------------------------------------------

  /** A result completes only futures dispatched on the session it arrived on, also when that session
      was displaced between the registry check and the pop; and the result a dispatcher returns is
      the one whose `resolve_result` returned True. */
  lemma SessionsDoNotMix(acts: seq<Action>, id: CommandId)
    requires id in After(acts).futures && After(acts).futures[id].outcome.Delivered?
    ensures After(acts).futures[id].outcome.via == After(acts).futures[id].session
    ensures forall t, s, r ::
              At(After(acts), t, Done(Answered(s, id, r))) || At(After(acts), t, Done(Acked(s, id, r))) ==>
                After(acts).futures[id].outcome == Delivered(r, s)
  {
    var st := After(acts);
    InOrder(acts);
    assert SeeFuture(id);
    forall t, s, r | At(st, t, Done(Answered(s, id, r))) || At(st, t, Done(Acked(s, id, r)))
      ensures st.futures[id].outcome == Delivered(r, s)
    {
      assert SeeThread(t);
    }
  }

  function UpToSentinel(log: seq<Message>): (r: seq<Message>)
    ensures r <= log && Sentinel !in r
  {
    if log == [] || log[0] == Sentinel then [] else [log[0]] + UpToSentinel(log[1..])
  }

  lemma {:induction false} CleanPrefix(log: seq<Message>, p: seq<Message>)
    requires p <= log && Sentinel !in p
    ensures p <= UpToSentinel(log)
  {
    if p != [] {
      assert p[0] == log[0] && p[0] in p;
      CleanPrefix(log[1..], p[1..]);
    }
  }

  /** What an agent was sent is a prefix of what was queued before the sentinel; of the queue's input
      at most one message is neither sent nor still queued, the one the loop holds. */
  lemma SentInOrder(acts: seq<Action>, s: SessionId)
    requires s in After(acts).sessions
    ensures var session := After(acts).sessions[s];
            && session.sent <= UpToSentinel(session.enqueued)
            && (session.sent + session.core.outbound == session.enqueued
                || exists m :: session.sent + [m] + session.core.outbound == session.enqueued)
  {
    InOrder(acts);
    assert SeeSession(s);
    SentOf(After(acts).sessions[s]);
  }

  lemma SentOf(session: Session)
    requires LocalOk(session)
    ensures session.sent <= UpToSentinel(session.enqueued)
    ensures (session.sent + session.core.outbound == session.enqueued
             || exists m :: session.sent + [m] + session.core.outbound == session.enqueued)
  {
    SplitSent(session.sent, InHand(session.sender), session.core.outbound, session.enqueued);
    CleanPrefix(session.enqueued, session.sent);
  }

  lemma SplitSent(sent: seq<Message>, hand: seq<Message>, outbound: seq<Message>, log: seq<Message>)
    requires sent + hand + outbound == log
    ensures sent <= log
    ensures hand == [] ==> sent + outbound == log
  {
    assert hand == [] ==> sent + hand == sent;
  }

  // ----- the registry ----------------------------------------------------------------------------

  /** Every open session is the registered one for its location, or about to be installed by a
      `register` call, or about to be closed by the call that took it out of the registry. */
  lemma OpenSessionsAreKept(acts: seq<Action>, s: SessionId)
    requires s in After(acts).sessions && !After(acts).sessions[s].core.closed
    ensures var st := After(acts); var loc := st.sessions[s].location;
            || (loc in st.registry && st.registry[loc] == s)
            || (exists t :: At(st, t, RegisterInstall(s)))
            || (exists t :: At(st, t, CloseLock(s)))
  {
    var st := After(acts);
    InOrder(acts);
    assert SeeSession(s);
    match st.sessions[s].keeper
    case Registered =>
    case Installing(t) => assert At(st, t, RegisterInstall(s));
    case Owed(t) => assert At(st, t, CloseLock(s));
  }

  /** Installed once, and no longer the registered session of its location. */
  predicate Displaced(st: State, s: SessionId) {
    HasInstalled(st, s)
    && (st.sessions[s].location !in st.registry || st.registry[st.sessions[s].location] != s)
  }

  /** The entry of a location leaves the registry only when a newer session is installed there or
      when its own session is unregistered: a stale connection's `unregister` never removes it. */
  lemma EntryLeaves(acts: seq<Action>, a: Action, loc: LocationId)
    requires loc in After(acts).registry
    requires var st' := Step(After(acts), a); loc !in st'.registry || st'.registry[loc] != After(acts).registry[loc]
    ensures var st := After(acts);
            && a.Go? && a.t in st.threads
            && (st.threads[a.t] == UnregisterLock(st.registry[loc])
                || (st.threads[a.t].RegisterInstall? && var s := st.threads[a.t].s;
                    s in st.sessions && st.sessions[s].location == loc && s != st.registry[loc]))
  {
    var st := After(acts);
    InOrder(acts);
    assert SeeEntry(loc);
    EntryStep(st, a, loc);
  }

  lemma EntryStep(st: State, a: Action, loc: LocationId)
    requires loc in st.registry && EntryOk(st, loc, st.registry[loc])
    requires var st' := Step(st, a); loc !in st'.registry || st'.registry[loc] != st.registry[loc]
    ensures && a.Go? && a.t in st.threads
            && (st.threads[a.t] == UnregisterLock(st.registry[loc])
                || (st.threads[a.t].RegisterInstall? && var s := st.threads[a.t].s;
                    s in st.sessions && st.sessions[s].location == loc && s != st.registry[loc]))
  {
    match a
    case Go(t, choice) => if t in st.threads { RegistryStep(st, t, choice); }
    case _ =>
  }

  /** The registry changes by an install or an unregister, at that session's location. */
  lemma RegistryStep(st: State, t: ThreadId, choice: nat)
    requires t in st.threads
    ensures var next := StepThread(st, t, choice).registry;
            match st.threads[t]
            case RegisterInstall(s) => next == if s in st.sessions then st.registry[st.sessions[s].location := s]
            else st.registry
            case UnregisterLock(s) =>
              next == if s in st.sessions && st.sessions[s].location in st.registry
              && st.registry[st.sessions[s].location] == s
                      then st.registry - {st.sessions[s].location} else st.registry
            case _ => next == st.registry
  {
    match st.threads[t]
    case RegisterInstall(s) => InstallMoves(st, t, s);
    case UnregisterLock(s) => UnregisterMoves(st, t, s);
    case _ => StepIsQuiet(st, t, choice);
  }

  lemma GoKeepsDisplaced(st: State, t: ThreadId, choice: nat, s: SessionId)
    requires t in st.threads && ThreadOk(st, t, st.threads[t]) && Displaced(st, s)
    ensures Displaced(StepThread(st, t, choice), s)
  {
    StepMoves(st, t, choice);
    RegistryStep(st, t, choice);
  }

  lemma StepKeepsDisplaced(st: State, a: Action, s: SessionId)
    requires Inv(st) && Displaced(st, s)
    ensures Displaced(Step(st, a), s)
  {
    match a
    case Go(t, choice) =>
      if t in st.threads {
        assert SeeThread(t);
        GoKeepsDisplaced(st, t, choice, s);
      }
    case _ =>
  }

  lemma {:induction false} StaysDisplaced(st: State, later: seq<Action>, s: SessionId)
    requires Inv(st) && Displaced(st, s)
    ensures Displaced(Run(st, later), s)
    decreases |later|
  {
    if later != [] {
      StepKeeps(st, later[0]);
      StepKeepsDisplaced(st, later[0], s);
      StaysDisplaced(Step(st, later[0]), later[1..], s);
    }
  }

  /** A session that was replaced or unregistered is never the registered one again. */
  lemma DisplacedForGood(acts: seq<Action>, later: seq<Action>, s: SessionId)
    requires Displaced(After(acts), s)
    ensures Displaced(After(acts + later), s)
  {
    RunSplits(START, acts, later);
    InOrder(acts);
    StaysDisplaced(After(acts), later, s);
  }
}
