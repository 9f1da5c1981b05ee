/** How a dispatch ends once its future is decided: which of its two ends an accepted result leads to,
    and that a closed session lets every waiting dispatcher go. */
module LiveEndings {
  import opened SessionCore
  import opened LiveProtocol
  import opened LiveInvariant
  import opened LiveMoves
  import opened LiveSteps
  import opened LiveTheorems

  // ----- an accepted result ----------------------------------------------------------------------

  /** The dispatch has not given up waiting. */
  predicate InTime(pc: Pc, s: SessionId, id: CommandId) {
    pc == DispatchPut(s, id) || pc == DispatchWait(s, id)
  }

  /** On its way to the result, or there. */
  predicate Answering(pc: Pc, s: SessionId, id: CommandId, r: Payload) {
    InTime(pc, s, id) || pc == Done(End.Answered(s, id, r))
  }

  /** On its way to the timeout, or there. */
  predicate GivingUp(pc: Pc, s: SessionId, id: CommandId) {
    pc == DispatchExpired(s, id) || pc == Done(TimedOut(s, id))
  }

  predicate Accepted(st: State, s: SessionId, id: CommandId, r: Payload) {
    id in st.futures && st.futures[id].outcome == Delivered(r, s)
  }

  /** The result is set, and the dispatcher `u` stands on one of the two ways. */
  predicate Fixed(st: State, u: ThreadId, s: SessionId, id: CommandId, r: Payload, answered: bool) {
    && Accepted(st, s, id, r) && u in st.threads
    && if answered then Answering(st.threads[u], s, id, r) else GivingUp(st.threads[u], s, id)
  }

  /** Nobody but its owner completes a future, and an accepted one has no owner. */
  lemma StaysAccepted(st: State, t: ThreadId, choice: nat, s: SessionId, id: CommandId, r: Payload)
    requires Inv(st) && Accepted(st, s, id, r) && t in st.threads
    ensures Accepted(StepThread(st, t, choice), s, id, r)
  {
    assert SeeThread(t);
    assert SeeFuture(id);
    match st.threads[t]
    case DispatchEnlist(_) =>
    case DispatchExpired(_, _) =>
    case ResolvePop(_, _, _) =>
    case ResolveSet(_, _, _) =>
    case CloseLock(_) =>
    case CloseFail(_, _) =>
    case _ => CallLeavesFutures(st, t, choice);
  }

  lemma CallLeavesFutures(st: State, t: ThreadId, choice: nat)
    requires t in st.threads
    requires var pc := st.threads[t];
             !pc.DispatchEnlist? && !pc.DispatchExpired? && !pc.ResolvePop? && !pc.ResolveSet? && !pc.CloseLock?
             && !pc.CloseFail?
    ensures StepThread(st, t, choice).futures == st.futures
  {
  }

  /** A step moves its own thread only. */
  lemma OthersStand(st: State, t: ThreadId, choice: nat, u: ThreadId)
    requires t in st.threads && u in st.threads && u != t
    ensures u in StepThread(st, t, choice).threads && StepThread(st, t, choice).threads[u] == st.threads[u]
  {
    StepMoves(st, t, choice);
  }

  lemma OwnStep(st: State, u: ThreadId, choice: nat, s: SessionId, id: CommandId, r: Payload, answered: bool)
    requires Fixed(st, u, s, id, r, answered)
    ensures var st' := StepThread(st, u, choice);
            u in st'.threads
            && if answered then Answering(st'.threads[u], s, id, r) else GivingUp(st'.threads[u], s, id)
  {
  }

  lemma StepStaysFixed(st: State, a: Action, u: ThreadId, s: SessionId, id: CommandId, r: Payload, answered: bool)
    requires Inv(st) && Fixed(st, u, s, id, r, answered)
    ensures Fixed(Step(st, a), u, s, id, r, answered)
  {
    match a
    case Go(t, choice) =>
      if t in st.threads {
        StaysAccepted(st, t, choice, s, id, r);
        if t == u { OwnStep(st, u, choice, s, id, r, answered); } else { OthersStand(st, t, choice, u); }
      }
    case _ =>
  }

  lemma {:induction false} RunStaysFixed(st: State, later: seq<Action>, u: ThreadId, s: SessionId, id: CommandId,
                                         r: Payload, answered: bool)
    requires Inv(st) && Fixed(st, u, s, id, r, answered)
    ensures Fixed(Run(st, later), u, s, id, r, answered)
    decreases |later|
  {
    if later != [] {
      StepStaysFixed(st, later[0], u, s, id, r, answered);
      StepKeeps(st, later[0]);
      RunStaysFixed(Step(st, later[0]), later[1..], u, s, id, r, answered);
    }
  }

  /** The step that sets the result fixes the dispatcher's way. */
  lemma SetFixes(st: State, t: ThreadId, s: SessionId, id: CommandId, r: Payload)
    requires Inv(st) && At(st, t, ResolveSet(s, id, r))
    ensures id in st.futures && st.futures[id].dispatcher in st.threads
    ensures var u := st.futures[id].dispatcher;
            && (InTime(st.threads[u], s, id) || GivingUp(st.threads[u], s, id))
            && Fixed(Step(st, Go(t, 0)), u, s, id, r, InTime(st.threads[u], s, id))
  {
    assert SeeThread(t);
    assert SeeFuture(id);
    assert SeeThread(st.futures[id].dispatcher);
  }

  /** What an accepted result means for the dispatcher, whatever happens later: it ends, or is on its way
      to end, with that very result if and only if it was still before or in its wait when the result was
      set; if it had given up by then, though the resolver is told True all the same, it times out. */
  lemma AnsweredIffInTime(acts: seq<Action>, t: ThreadId, s: SessionId, id: CommandId, r: Payload, later: seq<Action>)
    requires At(After(acts), t, ResolveSet(s, id, r))
    ensures var st := After(acts);
            && id in st.futures && st.futures[id].dispatcher in st.threads
            && var u := st.futures[id].dispatcher;
            && u in After(acts + ([Go(t, 0)] + later)).threads
            && var end := After(acts + ([Go(t, 0)] + later)).threads[u];
            && (InTime(st.threads[u], s, id) <==> Answering(end, s, id, r))
            && (!InTime(st.threads[u], s, id) <==> GivingUp(end, s, id))
  {
    var st := After(acts);
    InOrder(acts);
    SetFixes(st, t, s, id, r);
    RunSplits(START, acts, [Go(t, 0)] + later);
    RunOne(st, Go(t, 0), later);
    StepKeeps(st, Go(t, 0));
    var u := st.futures[id].dispatcher;
    RunStaysFixed(Step(st, Go(t, 0)), later, u, s, id, r, InTime(st.threads[u], s, id));
  }

  // ----- a closed session -------------------------------------------------------------------------

  lemma WaiterOfCompleteGoes(st: State, t: ThreadId, s: SessionId, id: CommandId)
    requires At(st, t, DispatchWait(s, id)) && id in st.futures && st.futures[id].outcome != Incomplete
    ensures t in Step(st, Go(t, 0)).threads && Step(st, Go(t, 0)).threads[t].Done?
  {
  }

  lemma OwnerCompletes(st: State, u: ThreadId, who: Remover, s: SessionId, id: CommandId, t: ThreadId)
    requires u in st.threads && Holds(st.threads[u], who, s, id) && s in st.sessions && id in st.futures
    requires At(st, t, DispatchWait(s, id))
    ensures var st' := Step(st, Go(u, id));
            At(st', t, DispatchWait(s, id)) && id in st'.futures && st'.futures[id].outcome != Incomplete
  {
  }

  /** From any run with a closed session and a dispatcher waiting on it, at most two steps end the wait. */
  lemma CloseReleases(acts: seq<Action>, s: SessionId, t: ThreadId, id: CommandId)
    requires Closed(After(acts), s) && At(After(acts), t, DispatchWait(s, id))
    ensures exists later :: |later| <= 2 && t in After(acts + later).threads && After(acts + later).threads[t].Done?
  {
    var st := After(acts);
    InOrder(acts);
    assert SeeThread(t); assert SeeFuture(id); assert SeeSession(s);
    if st.futures[id].outcome != Incomplete {
      WaiterOfCompleteGoes(st, t, s, id);
      RunSplits(START, acts, [Go(t, 0)]);
      RunOne(st, Go(t, 0), []);
    } else {
      var u := st.futures[id].custody.holder;
      OwnerCompletes(st, u, st.futures[id].custody.who, s, id, t);
      WaiterOfCompleteGoes(Step(st, Go(u, id)), t, s, id);
      RunSplits(START, acts, [Go(u, id), Go(t, 0)]);
      TwoSteps(st, Go(u, id), Go(t, 0));
    }
  }

  lemma TwoSteps(st: State, a: Action, b: Action)
    ensures Run(st, [a, b]) == Step(Step(st, a), b)
  {
    RunOne(st, a, [b]);
    RunOne(Step(st, a), b, []);
    assert [a] + [b] == [a, b] && [b] + [] == [b];
  }

  // ----- no call is stuck ---------------------------------------------------------------------------

  /** A dispatcher whose future is not complete yet. */
  predicate Waits(st: State, t: ThreadId) {
    t in st.threads && st.threads[t].DispatchWait?
    && st.threads[t].id in st.futures && st.futures[st.threads[t].id].outcome.Incomplete?
  }

  lemma {:induction false} FreshNumber(used: set<nat>) returns (n: nat)
    ensures forall x | x in used :: x < n
  {
    if used == {} {
      n := 0;
    } else {
      var x :| x in used;
      var m := FreshNumber(used - {x});
      n := if m > x then m else x + 1;
      forall y | y in used ensures y < n { assert y == x || y in used - {x}; }
    }
  }

  /** The thread is elsewhere after its next step, with this choice. */
  predicate MovesOn(st: State, t: ThreadId, choice: nat) {
    t in st.threads && t in Step(st, Go(t, choice)).threads && Step(st, Go(t, choice)).threads[t] != st.threads[t]
  }

  lemma CallMovesOn(st: State, t: ThreadId, choice: nat)
    requires t in st.threads && ThreadOk(st, t, st.threads[t]) && !st.threads[t].Done? && !Waits(st, t)
    requires var pc := st.threads[t];
             if pc.CloseFail? && pc.rest != {} then choice in pc.rest
             else choice !in st.futures && choice !in st.sessions
    ensures MovesOn(st, t, choice)
  {
  }

  /** In every run a call that has not ended, and does not wait for its future, goes on in its next step. */
  lemma CallsGoOn(acts: seq<Action>, t: ThreadId)
    requires t in After(acts).threads && !After(acts).threads[t].Done? && !Waits(After(acts), t)
    ensures exists choice :: MovesOn(After(acts), t, choice)
  {
    var st := After(acts);
    InOrder(acts);
    assert SeeThread(t);
    var pc := st.threads[t];
    var choice := FreshNumber(st.futures.Keys + st.sessions.Keys);
    if pc.CloseFail? && pc.rest != {} { choice :| choice in pc.rest; }
    CallMovesOn(st, t, choice);
  }

  /** A dispatch that comes to registering its future is refused exactly when its session is closed. */
  lemma RefusedIffClosed(acts: seq<Action>, t: ThreadId, s: SessionId, id: CommandId)
    requires At(After(acts), t, DispatchEnlist(s)) && id !in After(acts).futures
    ensures s in After(acts).sessions
    ensures At(After(acts + [Go(t, id)]), t, Done(Refused)) <==> After(acts).sessions[s].core.closed
    ensures At(After(acts + [Go(t, id)]), t, DispatchPut(s, id)) <==> !After(acts).sessions[s].core.closed
  {
    InOrder(acts);
    assert SeeThread(t);
    RunSplits(START, acts, [Go(t, id)]);
    RunOne(After(acts), Go(t, id), []);
    assert [Go(t, id)] + [] == [Go(t, id)];
  }
}
