/** The replicated-state-machine layer: one server's service above Raft. */
module Rsm {
  import opened Payload
  import KvMachine

  /** `ready` once the snapshot on disk was read and the reader was started. */
  datatype Service = Service(ready: bool, opId: int, lastApplied: nat, sm: KvMachine.State)

  /** A process just started: nothing restored yet. */
  const Booting := Service(false, 0, 0, KvMachine.Empty)

  /** The end of MakeRSM: read the snapshot the persister holds now, if any. */
  function Restored(s: Service, image: Option<Image>): Service {
    if image.Some?
    then Service(true, image.value.opId, image.value.index, KvMachine.Restore(image.value.sm))
    else s.(ready := true)
  }

  /** The request of a command; Raft never delivers the Nil of a snapshot entry. */
  predicate IsOp(c: Command) {
    c.Cmd?
  }

  function ApplyCommand(s: Service, index: nat, command: Command): Service
    requires IsOp(command)
  {
    if index <= s.lastApplied then s
    else s.(sm := KvMachine.DoOp(s.sm, command.op.req).0, lastApplied := index)
  }

  function ApplySnapshot(s: Service, index: nat, image: Image): Service {
    if index <= s.lastApplied then s
    else s.(opId := image.opId, lastApplied := index, sm := KvMachine.Restore(image.sm))
  }

  function CreateSnapshot(s: Service): Image {
    Image(s.opId, s.lastApplied, KvMachine.Snapshot(s.sm))
  }

  /** A process restarted from its own snapshot goes on counting, from the same place and with the same store. */
  lemma RestartResumes(s: Service)
    ensures var t := Restored(Booting, Some(CreateSnapshot(s)));
            t.ready && t.opId == s.opId && t.lastApplied == s.lastApplied && t.sm.cache == s.sm.cache
  {
  }
}
