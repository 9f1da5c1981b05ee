/** `AgentSession` and `AgentConnectionRegistry` as the objects they are. Each method is one call or
    one lock region run without interference; its contract ties the fields to the functions of
    `SessionCore`, from which `LiveProtocol` builds the interleavings. */
module AgentSessions {
  import opened Wrappers
  import opened SessionCore

  datatype Settlement = Unset | Result(payload: Payload) | Unavailable

  class Future {
    var outcome: Settlement

    constructor ()
      ensures outcome == Unset
    {
      outcome := Unset;
    }

    /** `set_result` and `set_exception` raise on a future that is already done. */
    method Settle(s: Settlement)
      requires outcome == Unset
      modifies this
      ensures outcome == s
    {
      outcome := s;
    }
  }

  class AgentSession {
    const location: nat
    var pending: map<CommandId, Future>
    var closed: bool
    var outbound: seq<Message>

    ghost function View(): Core
      reads this
    {
      Core(pending.Keys, closed, outbound)
    }

    /** Each pending command has its own future, not yet settled; a closed session has none. */
    ghost predicate Valid()
      reads this, pending.Values
    {
      && (closed ==> pending == map[])
      && (forall i, j | i in pending && j in pending && i != j :: pending[i] != pending[j])
      && (forall i | i in pending :: pending[i].outcome == Unset)
    }

    constructor (location: nat)
      ensures Valid() && View() == FRESH && this.location == location
    {
      this.location := location;
      pending, closed, outbound := map[], false, [];
    }

    /** The first half of a dispatch: a new future enters the pending map unless the session is closed. */
    method EnlistFuture(id: CommandId) returns (future: Option<Future>)
      requires Valid() && id !in pending
      modifies this
      ensures Valid() && View() == Enlist(old(View()), id)
      ensures future == None <==> old(closed)
      ensures future.Some? ==> fresh(future.value) && pending == old(pending)[id := future.value]
    {
      var f := new Future();
      if closed { return None; }
      pending := pending[id := f];
      future := Some(f);
    }

    method PutOutbound(m: Message)
      requires Valid()
      modifies this`outbound
      ensures Valid() && View() == Put(old(View()), m)
    {
      outbound := outbound + [m];
    }

    /** `wait_for_outbound_message`, once a message is there: None stands for the sentinel. */
    method TakeOutbound() returns (m: Option<CommandId>)
      requires Valid() && outbound != []
      modifies this`outbound
      ensures Valid() && View() == Get(old(View()))
      ensures old(outbound)[0] == (match m case None => Sentinel case Some(id) => Command(id))
    {
      m := if outbound[0].Sentinel? then None else Some(outbound[0].id);
      outbound := outbound[1..];
    }

    /** The dispatcher's own clean-up after its wait timed out. */
    method DropExpired(id: CommandId)
      requires Valid()
      modifies this`pending
      ensures Valid() && View() == Pop(old(View()), id) && pending == old(pending) - {id}
    {
      pending := pending - {id};
    }

    method ResolveResult(id: CommandId, r: Payload) returns (accepted: bool)
      requires Valid()
      modifies this`pending, pending.Values
      ensures Valid() && View() == Pop(old(View()), id) && pending == old(pending) - {id}
      ensures accepted <==> id in old(pending)
      ensures forall i | i in old(pending) ::
                old(pending)[i].outcome == if i == id then Result(r) else Unset
    {
      if id !in pending { return false; }
      var future := pending[id];
      pending := pending - {id};
      future.Settle(Result(r));
      accepted := true;
    }

    /** Closing fails every pending future and queues one sentinel; closing again does nothing. */
    method Close()
      requires Valid()
      modifies this, pending.Values
      ensures Valid() && closed
      ensures View() == if old(closed) then old(View()) else Put(Shut(old(View())), Sentinel)
      ensures forall i | i in old(pending) :: old(pending)[i].outcome == Unavailable
    {
      if closed { return; }
      closed := true;
      var snapshot := pending;
      pending := map[];
      var rest := snapshot.Keys;
      while rest != {}
        invariant rest <= snapshot.Keys && closed && pending == map[] && outbound == old(outbound)
        invariant snapshot == old(pending)
        invariant forall i | i in snapshot :: snapshot[i].outcome == if i in rest then Unset else Unavailable
        decreases rest
      {
        var id :| id in rest;
        snapshot[id].Settle(Unavailable);
        rest := rest - {id};
      }
      outbound := outbound + [Sentinel];
    }
  }

  class AgentConnectionRegistry {
    var sessions: map<nat, AgentSession>

    constructor ()
      ensures sessions == map[]
    {
      sessions := map[];
    }

    predicate IsRegistered(s: AgentSession)
      reads this
    {
      s.location in sessions && sessions[s.location] == s
    }

    /** The new session takes the location's entry; the one it displaces is closed. */
    method Register(location: nat) returns (s: AgentSession)
      requires location in sessions ==> sessions[location].Valid() && sessions[location].location == location
      modifies this
      modifies if location in sessions then {sessions[location]} else {}
      modifies if location in sessions then sessions[location].pending.Values else {}
      ensures fresh(s) && s.Valid() && s.View() == FRESH && s.location == location && IsRegistered(s)
      ensures sessions == old(sessions)[location := s]
      ensures location in old(sessions) ==>
                var displaced := old(sessions)[location];
                displaced.Valid() && displaced.closed && !IsRegistered(displaced)
                && forall i | i in old(displaced.pending) :: old(displaced.pending)[i].outcome == Unavailable
    {
      s := new AgentSession(location);
      var existing := if location in sessions then Some(sessions[location]) else None;
      sessions := sessions[location := s];
      if existing.Some? { existing.value.Close(); }
    }

    /** A stale connection's `unregister` closes its own session and leaves its replacement registered. */
    method Unregister(s: AgentSession)
      requires s.Valid()
      modifies this, s, s.pending.Values
      ensures s.Valid() && s.closed && !IsRegistered(s)
      ensures sessions == if old(IsRegistered(s)) then old(sessions) - {s.location} else old(sessions)
    {
      if s.location in sessions && sessions[s.location] == s { sessions := sessions - {s.location}; }
      s.Close();
    }

    /** Only the registered session of its location may resolve, and only what it dispatched. */
    method ResolveResult(s: AgentSession, id: CommandId, r: Payload) returns (accepted: bool)
      requires s.Valid()
      modifies s`pending, s.pending.Values
      ensures s.Valid()
      ensures accepted <==> IsRegistered(s) && id in old(s.pending)
      ensures s.View() == if accepted then Pop(old(s.View()), id) else old(s.View())
      ensures forall i | i in old(s.pending) ::
                old(s.pending)[i].outcome == if accepted && i == id then Result(r) else Unset
    {
      if s.location !in sessions || sessions[s.location] != s { return false; }
      accepted := s.ResolveResult(id, r);
    }
  }
}
