/** Log entries, RPC arguments and replies, and the state of one Raft peer. */
module RaftTypes {
  import opened Payload

  datatype LogEntry = LogEntry(command: Command, term: nat, index: nat)
  type Log = seq<LogEntry>

  /** The entry every log starts with; no leader ever appended it. */
  const Dummy := LogEntry(Nil, 0, 0)

  datatype Role = Follower | Candidate | Leader

  datatype VoteArgs = VoteArgs(term: nat, candidateId: nat, lastLogIndex: nat, lastLogTerm: nat)
  datatype VoteReply = VoteReply(term: nat, granted: bool)

  datatype AppendArgs = AppendArgs(
    term: nat, leaderId: nat, prevLogIndex: int, prevLogTerm: nat,
    entries: Log, leaderCommit: nat)
  datatype AppendReply = AppendReply(term: nat, success: bool, conflictIndex: int, conflictTerm: int)

  datatype SnapArgs = SnapArgs(
    term: nat, leaderId: nat, lastIncludedIndex: nat, lastIncludedTerm: nat, image: Option<Image>)
  datatype SnapReply = SnapReply(term: nat)

  /** What the applier hands to the service. */
  datatype ApplyMsg =
    | CommandMsg(index: nat, command: Command)
    | SnapshotMsg(index: nat, term: nat, image: Option<Image>)

  /** What the persister holds. */
  datatype Saved = Saved(
    term: nat, vote: int, logs: Log,
    lastIncludedIndex: nat, lastIncludedTerm: nat, image: Option<Image>)

  datatype Node = Node(
    me: nat,
    peers: nat,                       // how many peers, this one included
    currentTerm: nat,
    voteFor: int,                     // -1 when no vote was cast
    commitIndex: nat,
    lastApplied: nat,
    state: Role,
    nextIndex: seq<int>,
    matchIndex: seq<int>,
    logs: Log,                        // logs[0] stands for everything compacted
    lastIncludedIndex: nat,
    lastIncludedTerm: nat,
    pendingSnapshot: Option<ApplyMsg>,
    grantedVotes: nat,                // votes counted in the current election
    saved: Saved)
}
