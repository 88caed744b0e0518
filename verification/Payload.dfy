/** What Raft carries for the service above it. */
module Payload {
  import KvMachine

  /** A submitted operation: the server it came through, its id, the request. */
  datatype Op = Op(me: int, id: int, req: KvMachine.Request)

  /** Nil stands in the entry a log starts with after a snapshot. */
  datatype Command = Nil | Cmd(op: Op)

  /** A service snapshot: operation counter, index covered, machine state. */
  datatype Image = Image(opId: int, index: nat, sm: KvMachine.State)

  datatype Option<T> = None | Some(value: T)
}
