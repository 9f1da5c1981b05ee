/** The part of an `AgentSession` that its lock and its queue protect, as a value, and what each
    lock region and each queue operation does to it. The classes in `AgentSessions` are proved against
    these functions, and the interleaving model in `LiveProtocol` is built from them, so the two
    speak about the same regions. */
module SessionCore {

  type CommandId = nat
  type Payload = string

  /** What a session's outbound queue carries: the payload of a dispatch, or the close sentinel. */
  datatype Message = Command(id: CommandId) | Sentinel

  datatype Core = Core(pending: set<CommandId>, closed: bool, outbound: seq<Message>)

  const FRESH := Core({}, false, [])

  /** The lock region of `_dispatch_pending_result`: refused once the session is closed. */
  function Enlist(core: Core, id: CommandId): Core {
    if core.closed then core else core.(pending := core.pending + {id})
  }

  /** The lock region shared by `resolve_result` and the timeout branch: `dict.pop(id, None)`. */
  function Pop(core: Core, id: CommandId): Core {
    core.(pending := core.pending - {id})
  }

  /** The lock region of `close`: the first closer empties the pending map, later ones do nothing. */
  function Shut(core: Core): Core {
    if core.closed then core else core.(pending := {}, closed := true)
  }

  function Put(core: Core, m: Message): Core {
    core.(outbound := core.outbound + [m])
  }

  function Get(core: Core): Core
    requires core.outbound != []
  {
    core.(outbound := core.outbound[1..])
  }
}
