# Verified model of a Raft key/value stack

This project models, in Dafny, the distributed systems of a Go repository built
around one Raft implementation, and proves what they promise over every run.

**Raft** (`src/raft1`). `RaftNode` gives each locked section of a handler as a
function of the peer's state; `RaftServer` is the peer as an object, each method
shown to do exactly what the function says, arrays, loops and in-place selection
included. `Cluster` is the transition system: any number of peers, requests and
replies that may be lost, delayed, reordered and repeated, crashes at any moment
(also between the two writes of an election or of a term change), restarts from
saved state, log compaction and snapshot installation, and above each peer its
apply channel and its service. `RaftSpec` is Raft on full logs with history
variables; `RaftHistory` and `RaftInv` prove its invariant for every step, by way
of leader completeness. `Relation`, `SimElection`, `SimLeader`, `SimFollower`,
`Delivery`, `Refinement` and `ClusterSteps` show that every step of the cluster
follows it. `Safety` draws the conclusions for whole runs; `TermSafety` adds that
nothing a restart needs is ever unsaved, `BackupRuns` that a rejection moves the
leader back, and `Submissions` which entry a submission's result belongs to.
`Answers` states what the handlers do in any run and not only what they may:
when a vote is granted, a request accepted, an entry committed or applied.

**The service above Raft** (`src/kvraft1`). `KvMachine` is the key/value machine
with its bounded duplicate table, `KvReplicas` what becomes of it over a replica's
life, `KvMeaning` what its replies mean, counted in the log of requests alone,
`KvMemory` how far back it remembers, `KvServer` the object; `Rsm` is the layer
that applies commands and takes and restores snapshots, `RsmServer` the object
with its pending submissions.

**The single server and the lock** (`src/kvsrv1`). `VersionedKv` and
`KvsrvObjects` model server, clerk and lock; `KvRuns` is the system of clerks and
server over a lossy network with late deliveries; `LockRuns` puts any number of
lock clients on top.

**Shard configuration** (`src/shardkv1/shardcfg`): `Balance`, `ShardConfig`.

**MapReduce** (`src/mr`, `src/main`): `MapReduce` (grouping and partitioning),
`FileNames`, `Coordinator` and `CoordinatorServer` (tasks, queues, timeouts),
`Job` (workers, the sequential program, and that the two agree).

Where the code and what is said about it differ, the model follows the code:

- `InstallSnapShot` notes a greater term in memory and, when the snapshot is old,
  returns without saving it. Taken alone the handler can so lose a term in a
  restart: `TermSafety.TermLost` is such a peer, `TermSafety.UnsavedIff` the exact
  guard. In a cluster that guard never holds (`TermSafety.StaleUnreachable`): a
  leader sends a snapshot only for an entry of its own term, which a peer of a
  lower term cannot have applied, or to a peer that has answered it in that term.
  So terms never fall, across any crashes (`TermSafety.TermsNeverFall`).
- A replicated Put with a non-zero version on a missing key answers `ErrVersion`
  (`src/kvraft1/server.go`), while the single server answers `ErrNoKey`.
- The test for "my own operation" in `src/kvraft1/rsm/rsm.go:345` compares ids and
  looks at the pending operation's server, which is always this one. It can take
  another server's operation for one's own (`RsmServer.ForeignReply`), or an
  earlier one of the same server (`RsmServer.ReusedId`), since a snapshot may set
  the id counter back (`RsmServer.RepeatsIff`). What was executed is the entry
  `Start` appended exactly when it has the term `Start` returned
  (`Submissions.StartedEntry`, `Submissions.DeliveredIsOwn`, `RsmServer.RSM.Outcome`).
- A Put that is refused because the key is missing may still take effect if the
  refusal answers a retry, though the clerk reports it as final:
  `KvRuns.RefusalCertainIff`.
- A retry more than nine numbers below its client's highest may be executed again
  by a replica that restored a snapshot: `KvMachine.RetryOutsideWindow`, with the
  exact limit in `KvMachine.RestoredSees`.

Encoding is the identity on values, and a snapshot may be taken at any moment the
service runs. Terms, indices and versions are unbounded integers.

## Model

| member | source | states |
|---|---|---|
| Safety.RunRefines | src/raft1/raft.go:224-1131 | every run of the cluster is matched, state by state, by a run of full-log Raft that satisfies its invariant and whose history only grows |
| Safety.HandlersSafe | src/raft1/raft.go:253-782 | in a reachable state no enabled handler indexes a log, peer array or message out of range, and no message the service reads fails to decode |
| Safety.ElectionSafety | src/raft1/raft.go:360-392 | over a whole run, with crashes at any moment, two leaders of the same term are the same server |
| Safety.LogMatching | src/raft1/raft.go:458-550 | any two peers at any two moments: equal terms at an index they both hold mean equal entries at every index up to it they both hold, under compaction |
| Safety.OneHistory | src/raft1/raft.go:962-1044 | one log fits everything any server ever commits, delivers, saves as a snapshot or computes: commands at their indices, and every snapshot and service state is what executing exactly that prefix makes, with snapshots taken and restored somewhere on the way |
| Safety.StateMachineSafety | src/raft1/raft.go:962-1044 | no two servers ever deliver different commands at the same index |
| Safety.RepliesAgree | src/kvraft1/rsm/rsm.go:327-369 | services that have applied as many commands hold the same store and give the next request the reply of the unlimited machine run over the history, when history and request stay inside the duplicate table's window |
| Safety.ApplyStream | src/raft1/raft.go:962-1044 | logs[0].Index <= lastApplied <= commitIndex <= last index, logs[0] is the snapshot point, terms never fall along the log, each command sent is one above what is covered and each snapshot raises it |
| Safety.LeadersHoldCommitted | src/raft1/raft.go:665-685 | what a server committed is in the log of every leader of a later term, whenever it leads, and of its own term from then on |
| Safety.CommittedIsDurable | src/raft1/raft.go:665-685 | from the moment any server has committed an index, a majority has it in saved state, with the same entry or under a snapshot |
| Safety.RealTimeOrder | src/raft1/raft.go:867-897 | an index Start gives out when some server has committed i, if ever committed in that term, is above i |
| TermSafety.UnsavedIff | src/raft1/raft.go:253-278 | for any peer and any step: the term or vote in memory is left unsaved if and only if the step delivers an old snapshot of a greater term |
| TermSafety.RebootLowersIff | src/raft1/raft.go:171-192 | a restart lowers the term if and only if it was not saved |
| TermSafety.TermLost | src/raft1/raft.go:266-277 | a peer that notes term 3 and restarts in term 1 |
| TermSafety.StaleUnreachable | src/raft1/raft.go:273-277 | in no run does an old snapshot of a greater term arrive |
| TermSafety.NothingUnsaved | src/raft1/raft.go:152-192 | at every moment of every run the saved term and vote are those in memory |
| TermSafety.TermsNeverFall | src/raft1/raft.go:171-192 | a server's term never falls over a run, across crashes and restarts |
| TermSafety.NotStale | src/raft1/raft.go:273-277 | a snapshot ending with an entry of a greater term lies above everything the peer applied |
| TermSafety.SendTraced | src/raft1/raft.go:717-731 | a leader sends a snapshot for an entry of its own term, or to a peer that saved its term |
| Submissions.StartedEntry | src/raft1/raft.go:867-897 | whoever holds an entry at an index Start gave out, at any moment: it has the term Start returned if and only if it is the entry Start appended |
| Submissions.SubmittedHistory | src/kvraft1/rsm/rsm.go:211-255 | the run has a history in which every submission's entry stands at its index exactly when its term does |
| Submissions.DeliveredIsOwn | src/kvraft1/rsm/rsm.go:327-369 | a command delivered at a submission's index is that submission's entry if and only if the agreed entry has the term Start returned |
| Answers.VoteMeans | src/raft1/raft.go:360-392 | a vote is granted if and only if the voter may still vote for the candidate in that term and the full log the candidate stood with is at least as up to date as its own; a granted vote is saved |
| Answers.VoteAnswered | src/raft1/raft.go:360-392 | in any run: granted if and only if the voter is free and the last entry the candidate stood with, at some earlier moment, is not behind the voter's |
| Answers.TimeoutAsks | src/raft1/raft.go:929-945 | in any run: a peer that times out is a candidate of the next term with its own vote saved, and has asked every other peer |
| Answers.ElectionWon | src/raft1/raft.go:616-640 | in any run: a reply makes a leader if and only if it is a vote for a candidate of the current term and the voters counted are a majority; a new leader starts from the end of its log for everyone; a greater term makes a follower |
| Answers.AppendMeans | src/raft1/raft.go:458-550 | a request is accepted if and only if its term is not old and the full log has the previous entry at or above the snapshot point; commit then is the greater of the peer's and the leader's, and is unchanged otherwise |
| Answers.AppendAnswered | src/raft1/raft.go:458-550 | in any run, for a delivered request: the same of the peer, its next state holds every entry sent in its term, and the reply is sent |
| Answers.MajorityCommits | src/raft1/raft.go:665-685 | in any run: after a success commitIndex is at or above every entry of the leader's term that a majority of match indices reach, is never lowered, and moves only to such an entry |
| Answers.AdvanceMeans | src/raft1/raft.go:665-685 | the same of the selection step on any reachable leader; nothing else of the peer changes |
| Answers.StepsDown | src/raft1/raft.go:733-781 | in any run: a leader that is told a greater term follows it and saves it; an installed snapshot sets both indices of the peer |
| Answers.SendsAll | src/raft1/raft.go:717-745 | in any run: what a leader sends reaches to the end of its log with its commit index, or is its snapshot exactly when the peer is behind it |
| Answers.StartAnswers | src/raft1/raft.go:867-897 | in any run: the flag is true if and only if the peer leads; then index and term are those of an entry with this command above all others, in memory and saved; otherwise nothing changes |
| Answers.InstallAnswers | src/raft1/raft.go:253-337 | in any run: a snapshot is installed and staged if and only if its term is not old and it is above what was applied; otherwise log and saved state stay |
| Answers.SnapshotAnswers | src/raft1/raft.go:224-251 | in any run: the log is cut at an index inside it, the image is saved with it and every later entry is kept; any other index changes nothing |
| Answers.TakeAnswers | src/raft1/raft.go:962-1044 | in any run: something is sent if and only if a snapshot is staged or a committed entry is not applied: the snapshot, else exactly the next entry |
| Answers.ServiceAnswers | src/kvraft1/rsm/rsm.go:327-369 | in any run, inside the window: a service's reply to a new request is the one counted in the agreed history up to its lastApplied |
| ClusterSteps.EnabledStep | src/raft1/raft.go:224-1044 | every step that can happen is safe, keeps the cluster invariant and only extends the history |
| ClusterSteps.SafeStep | src/raft1/raft.go:458-782 | the preconditions of every handler follow from the invariant |
| RaftHistory.LeaderCompleteness | src/raft1/raft.go:360-392 | an entry committed in its own term by a majority is in the log of every later leader, by quorum intersection and the up-to-date check |
| RaftHistory.UpToDateHas | src/raft1/raft.go:792-795 | a candidate whose log is at least as up to date as a voter's has the committed entry the voter has, if all leaders in between had it |
| RaftHistory.Matching | src/raft1/raft.go:844-853 | two well-formed logs with the same term at an index are equal up to it |
| RaftHistory.AgreedUnique | src/raft1/raft.go:665-685 | of two agreed logs the shorter is a prefix of the longer |
| RaftInv.TermUnwon | src/raft1/raft.go:594-643 | a candidate with a majority of votes in a term: nobody has won that term yet |
| RaftInv.GrantInv | src/raft1/raft.go:360-392 | granting a vote keeps the invariant |
| RaftInv.AcceptInv | src/raft1/raft.go:531-550 | taking over a leader's log up to an index and acknowledging it keeps the invariant: what was acknowledged before is kept unless a later leader lacked it |
| RaftInv.AppendInv | src/raft1/raft.go:867-897 | appending a command at the leader keeps the invariant |
| RaftInv.LeadInv | src/raft1/raft.go:90-117 | winning an election keeps the invariant |
| RaftInv.RestartInv | src/raft1/raft.go:171-192 | a restart from whatever was saved keeps the invariant |
| RaftInv.TornInv | src/raft1/raft.go:938-941 | a crash between the two writes of an election keeps the invariant |
| SimElection.SimTimeout | src/raft1/raft.go:929-945 | launching an election is standing in the specification; the requests sent carry the candidate's last entry |
| SimElection.SimRequestVote | src/raft1/raft.go:360-392 | the vote handler follows the specification, and a granted reply stands for a recorded vote |
| SimElection.SimVoteReply | src/raft1/raft.go:616-640 | counting a reply keeps tally and votes in step; more than half makes a leader |
| SimElection.SimReboot | src/raft1/raft.go:1081-1131 | a new process reading what was saved follows the specification |
| SimElection.SimTorn | src/raft1/raft.go:938-941 | so does one that stops after saving the new term |
| SimLeader.SimStart | src/raft1/raft.go:867-897 | Start appends to the leader's log and counts the leader's own copy |
| SimLeader.SentAppend | src/raft1/raft.go:420-454 | a request carries the leader's whole suffix from its previous entry on and a commit index inside it |
| SimLeader.SentSnapshot | src/raft1/raft.go:132-143 | a snapshot sent is of an agreed prefix of the leader's log |
| SimLeader.SelectedIsCommitted | src/raft1/raft.go:665-685 | the selected index, if its entry is of the current term, is held by a majority |
| SimLeader.SimAppendReply | src/raft1/raft.go:756-781 | each reply to AppendEntry, however late, keeps match indices acknowledged |
| SimLeader.SimSnapReply | src/raft1/raft.go:733-742 | so does each reply to InstallSnapShot |
| SimFollower.SimAppendEntry | src/raft1/raft.go:458-550 | AppendEntry on a trimmed log is acceptance of the leader's log on the full one; success, which is exactly a current term and a matching previous entry, means acknowledged; commit is then the greater of the two and commits nothing the leader did not match |
| SimFollower.StoreIsAccept | src/raft1/raft.go:531-540 | the loop over entries stores exactly the leader's log up to the last entry sent, or changes nothing when that is already there |
| SimFollower.SimInstall | src/raft1/raft.go:253-337 | InstallSnapShot in all its branches follows the specification and its reply acknowledges the snapshot point |
| SimFollower.InstalledIs | src/raft1/raft.go:287-313 | the log kept is the suffix, from the snapshot on, of the log the specification accepts |
| SimFollower.SimSnapshot | src/raft1/raft.go:224-251 | compaction changes where the log starts and nothing it stands for |
| Relation.MatchedMeans | src/raft1/raft.go:844-853 | isLogMatched on the trimmed log is exactly a term comparison in the full log at or above the snapshot point |
| Refinement.StepSnapReq | src/raft1/raft.go:253-337 | a staged snapshot lies above all that was sent and encodes the agreed prefix |
| Refinement.StepTake | src/raft1/raft.go:962-1044 | what the applier takes next continues the stream and is the agreed entry or snapshot |
| Refinement.StepSnapshot | src/kvraft1/rsm/rsm.go:371-401 | a snapshot the service hands to Raft encodes the fold up to the index reported |
| Delivery.ReceiveOk | src/kvraft1/rsm/rsm.go:303-319 | applying the next message leaves the service at the fold of the history up to its lastApplied |
| Delivery.RestoreOk | src/kvraft1/rsm/rsm.go:102-119 | reading the persister at any later moment gives a fold at or above what the channel starts from |
| Delivery.StateAtSnapshot | src/kvraft1/rsm/rsm.go:371-401 | saving and restoring a state keeps what it is the fold of |
| FastBackup.SearchFinds | src/raft1/raft.go:693-697 | the bisection finds the first entry of the term or a later one |
| FastBackup.ConflictIsFirst | src/raft1/raft.go:498-528 | a rejection names one past the log's end, or the first index holding the conflicting term |
| FastBackup.BackupProgress | src/raft1/raft.go:688-715 | after a rejection at or above the follower's snapshot the leader looks strictly earlier or sends its snapshot next |
| BackupRuns.RejectionMovesBack | src/raft1/raft.go:688-715 | in any run, when a peer rejects a request it considers and the answer reaches the leader of that term, the leader looks strictly earlier or sends its snapshot next |
| BackupRuns.StillNamed | src/raft1/raft.go:688-715 | a leader's log still names the entry before any request of its term, unless compacted |
| Selection.QuickSelect | src/raft1/util.go:55-85 | in place: terminates, permutes the array and returns the k-th smallest |
| Selection.KthRank | src/raft1/util.go:55-85 | the k-th smallest is the one value with at most k below it and more than k not above it |
| Selection.MajorityReaches | src/raft1/raft.go:673-674 | the selected match index is at least x if and only if a majority of match indices are |
| RaftServer.Raft.constructor | src/raft1/raft.go:1081-1131 | a new peer is the function of what was saved |
| RaftServer.Raft.Persist | src/raft1/raft.go:152-168 | saves term, vote, log and snapshot point, and the snapshot when there is one |
| RaftServer.Raft.UpdateTermAndStepDown | src/raft1/raft.go:808-814 | a greater term is adopted and saved, with no vote, as follower |
| RaftServer.Raft.LaunchElection | src/raft1/raft.go:594-606 | new state and vote request are those of the node function |
| RaftServer.Raft.RequestVote | src/raft1/raft.go:360-392 | new state and reply are those of the node function, pinned in every run by `Answers.VoteAnswered` |
| RaftServer.Raft.BecomeLeader | src/raft1/raft.go:90-117 | both index arrays are reset in place |
| RaftServer.Raft.HandleVoteReply | src/raft1/raft.go:616-640 | new state is that of the node function |
| RaftServer.Raft.Start | src/raft1/raft.go:867-897 | new state, index, term and flag are those of the node function, pinned in every run by `Answers.StartAnswers` |
| RaftServer.Raft.GenAppendEntryArgs | src/raft1/raft.go:420-454 | the request built, clamping included |
| RaftServer.Raft.Search | src/raft1/raft.go:693-697 | the bisection loop computes the recursive search |
| RaftServer.Raft.AcceptNewLogEntries | src/raft1/raft.go:665-685 | indices updated in place, and commitIndex moved by selection on a copy, as `Answers.MajorityCommits` says of every run |
| RaftServer.Raft.RollBackToConflictTerm | src/raft1/raft.go:688-715 | the peer's next index after a rejection |
| RaftServer.Raft.HandleAppendReply | src/raft1/raft.go:756-781 | new state is that of the node function |
| RaftServer.Raft.HandleSnapReply | src/raft1/raft.go:733-742 | new state is that of the node function |
| RaftServer.Raft.StoreEntries | src/raft1/raft.go:531-538 | the loop with its break stores what the recursive scan says |
| RaftServer.Raft.Mismatch | src/raft1/raft.go:498-528 | the rejection built |
| RaftServer.Raft.AppendEntry | src/raft1/raft.go:458-550 | new state and reply are those of the node function, pinned in every run by `Answers.AppendAnswered` |
| RaftServer.Raft.Snapshot | src/raft1/raft.go:224-251 | new state is that of the node function |
| RaftServer.Raft.InstallSnapShot | src/raft1/raft.go:253-337 | new state and reply are those of the node function, pinned in every run by `Answers.InstallAnswers` |
| RaftServer.Raft.Take | src/raft1/raft.go:962-1044 | one round of the applier: new state and what is sent |
| KvReplicas.BoundedIsUnbounded | src/kvraft1/server.go:65-232 | for every interleaving of requests with snapshots taken and restored, inside the window: replies and store equal those of a table that never forgets |
| KvReplicas.NeverDiverge | src/kvraft1/server.go:65-232 | replicas with the same requests and snapshots at different points give the same replies and stores |
| KvReplicas.RepresentsSees | src/kvraft1/server.go:65-232 | a state made of exactly these requests, whatever snapshots came between, has the unlimited machine's store and gives its next reply, inside the window |
| KvReplicas.RepresentsOp | src/kvraft1/server.go:65-167 | executing a request makes a state of the log with that request added |
| KvReplicas.RepresentsRestore | src/kvraft1/server.go:169-232 | saving and restoring makes a state of the same log |
| KvMeaning.NewReplyMeans | src/kvraft1/server.go:93-140 | for every log: a new Get returns OK with the value of the last accepted Put on the key and, as version, the number of accepted Puts on it, or ErrNoKey if there was none; a new Put is accepted if and only if its version is that number |
| KvMeaning.OldReplyMeans | src/kvraft1/server.go:84-92 | a repeated request gets the reply its first occurrence got, as counted in the log before it |
| KvMeaning.RefMeans | src/kvraft1/server.go:98-140 | the store holds a key if and only if the log has an accepted Put on it, with the last value and their number |
| KvMeaning.ReplicaReplies | src/kvraft1/server.go:65-167 | the bounded machine, with any snapshots on the way, inside the window: its reply to a new request is the one counted in the log |
| KvMeaning.UnknownRefused | src/kvraft1/server.go:65-167 | a new request that is neither Get nor Put is refused and leaves no trace |
| KvMemory.UnrestoredIsUnbounded | src/kvraft1/server.go:142-165 | without restores, a replica whose repeats stay within a hundred of the client's highest number has the store and every such reply of the machine that never forgets |
| KvMemory.KnownAfterHighest | src/kvraft1/server.go:149-158 | right after a new highest number a reply is known if and only if it was given and is within a hundred of it |
| KvMachine.DoOpSim | src/kvraft1/server.go:65-167 | one request: same reply as the unlimited machine, and states still correspond |
| KvMachine.SnapshotSim | src/kvraft1/server.go:169-232 | trimming and restoring keeps the correspondence |
| KvMachine.RestoredSees | src/kvraft1/server.go:169-206 | a restored replica recognises a repeat if and only if it is inside the window |
| KvMachine.RetryOutsideWindow | src/kvraft1/server.go:169-206 | a concrete retry just outside the window that a restored replica answers differently |
| KvMachine.RepliesLegal | src/models1/kv.go:44-67 | each reply is a legal step of the sequential model, or the reply given before to the same client and number |
| KvMachine.FreshIsLegal | src/models1/kv.go:49-67 | a fresh execution is accepted by the model, moves its key as the model does and leaves other keys |
| KvServer.KVServer.Collect | src/kvraft1/server.go:149-158 | the deletion loop keeps exactly the replies within 100 of the highest number |
| KvServer.KVServer.DoOp | src/kvraft1/server.go:65-167 | new maps and reply are those of the machine, whose replies `KvMeaning.ReplicaReplies` counts in the log |
| KvServer.KVServer.RecentReplies | src/kvraft1/server.go:187-197 | the loop keeps exactly the last ten numbers |
| KvServer.KVServer.Snapshot | src/kvraft1/server.go:169-206 | the image is the trimmed machine |
| KvServer.KVServer.Restore | src/kvraft1/server.go:208-232 | both maps are replaced by the image |
| RsmServer.RSM.constructor | src/kvraft1/rsm/rsm.go:86-122 | starts from the snapshot on disk, if any |
| RsmServer.RSM.Register | src/kvraft1/rsm/rsm.go:227-247 | the newcomer waits at its index and whoever waited there is told no |
| RsmServer.RSM.Outcome | src/kvraft1/rsm/rsm.go:282-288 | OK means an operation with the same id was executed at the same index and the reply is its reply; it is the submission's own entry if and only if it has the term Start returned |
| RsmServer.RSM.ApplyCommand | src/kvraft1/rsm/rsm.go:327-369 | new service state, and the verdict for whoever waits at the index |
| RsmServer.RSM.ApplySnapshot | src/kvraft1/rsm/rsm.go:403-441 | new service state, and no for everyone waiting at or below the index |
| RsmServer.RSM.CreateSnapshot | src/kvraft1/rsm/rsm.go:371-401 | the image is for lastApplied, and none is made below the index asked for |
| Rsm.RestartResumes | src/kvraft1/rsm/rsm.go:102-119 | a process restarted from its own snapshot has the id counter, lastApplied and store it saved |
| RsmServer.ForeignReply | src/kvraft1/rsm/rsm.go:343-358 | calls on the object after which a submission gets OK with the reply to another server's request |
| RsmServer.ReusedId | src/kvraft1/rsm/rsm.go:343-358 | calls on the object after which a submission gets OK with the reply to an earlier request of the same server |
| RsmServer.RepeatsIff | src/kvraft1/rsm/rsm.go:428 | after a process's first snapshot the next id was given out before if and only if the snapshot sets the counter below where it was and not below where the process started |
| RsmServer.ForwardIsFresh | src/kvraft1/rsm/rsm.go:217-222 | as long as no snapshot sets the counter back, every id is new |
| KvRuns.PutAtMostOnce | src/kvsrv1/client.go:78-105 | in every run: a Put that returned OK took effect exactly once; one that returned ErrVersion, or any refusal of its first attempt, never did and never will |
| KvRuns.RefusalCertainIff | src/kvsrv1/client.go:92-104 | a Put refused for a missing key after n attempts never takes effect in any run if and only if n is 1; one refused with ErrVersion never does |
| KvRuns.LateEffect | src/kvsrv1/client.go:92-104 | for every n above 1, a run in which a Put returns ErrNoKey after n attempts and takes effect later |
| KvRuns.VersionCounts | src/kvsrv1/server.go:89-144 | a key's version is the number of Puts that took effect on it |
| KvRuns.DuplicateReplyUnreachable | src/kvsrv1/server.go:94-112 | when a retry repeats its arguments the remembered reply is never used for a Put |
| KvRuns.GetReads | src/kvsrv1/server.go:54-83 | a Get answer, remembered or fresh, is of a past version or of the present one with its value |
| KvRuns.GetWasTrue | src/kvsrv1/client.go:43-59 | what a Get returned, value, version or ErrNoKey, was the key's content in some state after it began and before it returned |
| KvRuns.PutServed | src/kvsrv1/server.go:89-144 | in every run: a Put is answered as the key's state says at that moment, and writes its value and the next version if and only if that is OK |
| KvRuns.PutWasTrue | src/kvsrv1/client.go:78-105 | what a Put returned is the verdict on what the key's state said at some moment during the call: OK, ErrVersion (ErrMaybe after a retry) or ErrNoKey |
| KvRuns.StepInv | src/kvsrv1/server.go:54-144 | every step of clerks, network and server keeps the invariant |
| KvsrvObjects.KVServer.Get | src/kvsrv1/server.go:54-83 | new maps and reply are those of the function |
| KvsrvObjects.KVServer.Put | src/kvsrv1/server.go:89-144 | new maps and reply are those of the function |
| KvsrvObjects.Clerk.Get | src/kvsrv1/client.go:43-59 | the retry loop returns the first answer to come |
| KvsrvObjects.Clerk.Put | src/kvsrv1/client.go:78-105 | the retry loop returns the verdict on the first attempt answered: ErrVersion turns into ErrMaybe after the first |
| LockRuns.MutualExclusion | src/kvsrv1/lock/lock.go:34-103 | in every run, with lost and late Puts: at most one client is between return from Acquire and the effect of its Release, and the key's value is its id |
| LockRuns.InsideHolds | src/kvsrv1/lock/lock.go:34-72 | a client whose Acquire has returned holds the lock until it calls Release |
| LockRuns.ValueTellsHolder | src/kvsrv1/lock/lock.go:34-103 | in every run, for a client in neither call: the key's value is its id if and only if its last Acquire is not yet released |
| LockRuns.Returns | src/kvsrv1/lock/lock.go:34-103 | in every run: after its Get, Acquire returns if and only if the key holds the client's id and Release if and only if it does not; after its Put each returns only then |
| LockRuns.ReleaseWrites | src/kvsrv1/lock/lock.go:85-100 | in every run: the Put of a Release that has not taken effect does so as soon as it is served, and frees the lock |
| LockRuns.AcquireWrites | src/kvsrv1/lock/lock.go:34-72 | an Acquire that read the free lock as it still is waits for a Put that takes it as soon as it is served |
| LockRuns.MoveInv | src/kvsrv1/lock/lock.go:34-103 | every move of a client or the network keeps the lock's invariant |
| LockRuns.Bystander | src/kvsrv1/lock/lock.go:34-103 | a Put that writes the key breaks nothing any other client relies on |
| KvsrvObjects.Lock.Acquire | src/kvsrv1/lock/lock.go:34-72 | for any answers, the loop makes the calls and ends where the control function says |
| KvsrvObjects.Lock.Release | src/kvsrv1/lock/lock.go:74-103 | for any answers, the loop makes the calls and ends where the control function says |
| Balance.RebalanceBalances | src/shardkv1/shardcfg/shardcfg.go:122-154 | every shard ends on a member group with loads at most one apart; with no groups all shards are unassigned |
| Balance.RebalanceStable | src/shardkv1/shardcfg/shardcfg.go:122-154 | a balanced configuration is left as it is |
| Balance.MovesOnce | src/shardkv1/shardcfg/shardcfg.go:141-153 | in the balancing loop a group that receives never gives, before or after, and no shard moves twice |
| Balance.LowKeep | src/shardkv1/shardcfg/shardcfg.go:141-153 | groups within one of the least loaded keep all their shards to the end |
| Balance.HighKeep | src/shardkv1/shardcfg/shardcfg.go:141-153 | groups within one of the most loaded receive nothing to the end |
| Balance.ShiftLowers | src/shardkv1/shardcfg/shardcfg.go:141-153 | each move lowers the sum of squared loads |
| Balance.AssignAll | src/shardkv1/shardcfg/shardcfg.go:131-138 | the first phase puts every shard on a member and moves no shard that already is |
| ShardConfig.Extremes | src/shardkv1/shardcfg/shardcfg.go:86-110 | the scan finds the most and least loaded groups, the smallest number among equals |
| ShardConfig.SortedKeys | src/shardkv1/shardcfg/shardcfg.go:92-98 | whatever the order keys are met in, the sorted list is the same |
| ShardConfig.ShardConfig.Analyze | src/shardkv1/shardcfg/shardcfg.go:80-111 | the four results, with -1 and 257 when there are no groups |
| ShardConfig.ShardConfig.Rebalance | src/shardkv1/shardcfg/shardcfg.go:122-154 | terminates, and the array ends as a function of the shards and the set of groups alone |
| MapReduce.ReduceSorted | src/mr/worker.go:141-158 | on sorted pairs the nested loops give one line per key, with all its values |
| MapReduce.Partition | src/mr/worker.go:99-110 | each reduce task's file holds exactly its pairs, in order |
| MapReduce.ReadPermuted | src/mr/worker.go:118-132 | the order in which files are read does not change the pairs read |
| MapReduce.DistributedIsSequential | src/mr/worker.go:114-167 | for every partition function and reduce count and every order-insensitive reducef, the lines of all reduce tasks are the sequential lines as a multiset |
| FileNames.NameParses | src/mr/coordinator.go:147-151 | a name mr-m-r parses back to r, and to m |
| Coordinator.QueuedIffIdle | src/mr/coordinator.go:85-217 | in every run a task is queued exactly once while idle and not otherwise, and queues never outgrow the tasks |
| Coordinator.CompletedStays | src/mr/coordinator.go:126-217 | a completed task stays completed |
| Coordinator.ReduceInputs | src/mr/coordinator.go:110-122 | a reduce task is given out only when all maps are completed, with exactly one file per map |
| Coordinator.GetTaskAnswers | src/mr/coordinator.go:85-124 | in every run: Finished if and only if every task is completed; otherwise a map task if and only if the map phase lasts and one is idle, a reduce task if and only if it is over and one is idle; the task given was idle, is in process, and no other changes |
| Coordinator.DoneIsFinal | src/mr/coordinator.go:221-249 | in every run: Done is true if and only if every map and reduce task is completed, which is when GetTask says Finished; once true it stays true and no task is given out again; the map phase ends exactly when every map is completed |
| Coordinator.FinishAnswers | src/mr/coordinator.go:126-157 | after a report the task is completed unless it was idle, and no other task changed |
| Coordinator.AddMapFiles | src/mr/coordinator.go:144-152 | reporting a map's files adds one name to each reduce task's list |
| Coordinator.ExpireOk | src/mr/coordinator.go:189-217 | a timeout of an unfinished task finds it in process, and queues it again once |
| CoordinatorServer.Coordinator.MakeCoordinator | src/mr/coordinator.go:254-299 | all tasks idle and queued in order, unless there are more files than the map queue's 10000 slots: then it never returns |
| CoordinatorServer.Coordinator.GetTask | src/mr/coordinator.go:85-124 | new state and reply are those of the function, pinned in every run by `Coordinator.GetTaskAnswers` |
| CoordinatorServer.Coordinator.FinishedTask | src/mr/coordinator.go:126-157 | new state is that of the function |
| CoordinatorServer.Coordinator.CheckFinished | src/mr/coordinator.go:189-217 | new state is that of the function |
| CoordinatorServer.Coordinator.Done | src/mr/coordinator.go:221-249 | new flag and answer are those of the function, which `Coordinator.DoneIsFinal` pins in every run |
| Job.MapWork | src/mr/worker.go:71-112 | the names reported and what is written under each |
| Job.ReduceWork | src/mr/worker.go:114-167 | the output is that of the pairs in the files named |
| Job.Sequential | src/main/mrsequential.go:38-86 | the output is that of everything emitted |
| Job.PartOf | src/mr/coordinator.go:110-122 | the files a reduce task is given hold exactly its share of everything emitted |
| Job.JobIsSequential | src/mr/coordinator.go:85-249 | in any run of the coordinator, outputs made from the files given out add up to the sequential program's lines |

## Left out

- Timers, goroutines, condition variables and every claim about progress in time: a timeout is a step that may happen at any moment.
- Shutdown and Kill paths, `activeOps`, and the bounded waits in Submit.
- Byte sizes and `maxraftstate`: the decision to snapshot is free.
- labrpc and labgob: the network is a set of messages, encoding the identity; a Call has at most one reply.
- The kvraft clerk's search for the leader (`src/kvraft1/client.go`) and the Get and Put entry points of its server: plumbing around Submit.
- Join and Leave of the shard configuration, and the unfinished shardkv packages.
- Hashing of keys: `Key2Shard` is not modelled, and `ihash` is any function of the key.
- Files as mutable disk objects: the content under a name is fixed, as every re-execution of a map writes the same.
- 64-bit wrap-around of terms, indices, ids and versions.
- KvReplicas.BoundedIsUnbounded: asks that sequence numbers be positive and that a repeated number be within nine of its client's highest, which is exactly what a restored replica can recognise.
- RsmServer.RSM.Outcome: promises the same index and id only, since that is all the code compares; the terms that decide more are not visible to it.
- RsmServer.RSM.Register: takes as given that Raft has one entry for an index and term; `Submissions.StartedEntry` proves that of every run.
- RsmServer.RSM.ApplyCommand: takes the same as given of the command delivered, with its entry's term as a ghost argument.
- KvRuns.PutAtMostOnce: says nothing of a Put refused after a retry, because an attempt may still arrive or have arrived.
- FastBackup.BackupProgress: leaves out rejections below the follower's snapshot, which raise the next index.
- KvsrvObjects.Clerk.Get: what becomes of each call is a parameter, and the loop is cut off when those run out.
- KvsrvObjects.Clerk.Put: what becomes of each call is a parameter, and the loop is cut off when those run out.
- KvsrvObjects.Lock.Acquire: the clerk's answers are a parameter; their interplay with other clients is in LockRuns.
- KvsrvObjects.Lock.Release: the clerk's answers are a parameter, as for Acquire.
- Job.ReduceWork: sorting is some sort by key, not the library's algorithm.
