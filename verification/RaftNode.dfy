/**
 * The locked sections of one Raft peer as functions of its state: what each
 * handler makes of the peer, and what it replies or sends.
 */
module RaftNode {
  import opened Payload
  import opened RaftTypes
  import Selection

  // ---- Reading the log -----------------------------------------------------

  /** Indices run on from the first entry; the peer arrays have one slot each. */
  predicate Valid(n: Node) {
    && |n.logs| >= 1
    && (forall i | 0 <= i < |n.logs| :: n.logs[i].index == n.logs[0].index + i)
    && n.me < n.peers == |n.nextIndex| == |n.matchIndex|
  }

  function First(n: Node): LogEntry
    requires |n.logs| >= 1
  {
    n.logs[0]
  }

  function Last(n: Node): LogEntry
    requires |n.logs| >= 1
  {
    n.logs[|n.logs| - 1]
  }

  predicate ValidIndex(n: Node, index: int)
    requires |n.logs| >= 1
  {
    0 <= index - First(n).index < |n.logs|
  }

  predicate LogMatched(n: Node, index: int, term: nat)
    requires |n.logs| >= 1
  {
    && First(n).index <= index <= Last(n).index
    && ValidIndex(n, index)
    && term == n.logs[index - First(n).index].term
  }

  predicate LogUpToDate(n: Node, index: nat, term: nat)
    requires |n.logs| >= 1
  {
    term > Last(n).term || (term == Last(n).term && index >= Last(n).index)
  }

  /** sort.Search for the first entry of at least the given term. */
  function Search(logs: Log, i: int, j: int, term: int): (r: int)
    requires 0 <= i && j <= |logs|
    ensures i <= r && (i <= j ==> r <= j)
    decreases j - i
  {
    if i >= j then i else
      var h := (i + j) / 2;
      if logs[h].term >= term then Search(logs, i, h, term) else Search(logs, h + 1, j, term)
  }

  /** One slot per peer, all the same. */
  function Fill(n: nat, x: int): (r: seq<int>)
    ensures |r| == n && forall i | 0 <= i < n :: r[i] == x
  {
    seq(n, _ => x)
  }

  // ---- Saving --------------------------------------------------------------

  function Persist(n: Node, image: Option<Image>): Node {
    n.(saved := Saved(n.currentTerm, n.voteFor, n.logs, n.lastIncludedIndex, n.lastIncludedTerm,
                      if image.Some? then image else n.saved.image))
  }

  function PersistState(n: Node): Node {
    Persist(n, None)
  }

  function UpdateTermAndStepDown(n: Node, term: nat): Node {
    if term > n.currentTerm
    then PersistState(n.(currentTerm := term, voteFor := -1, state := Follower))
    else n
  }

  /** A new process: the given state read back, everything else as made. */
  function Make(me: nat, peers: nat, saved: Saved): Node
    requires |saved.logs| >= 1
  {
    var first := saved.logs[0].index;
    Node(me, peers, saved.term, saved.vote, first, first, Follower,
         Fill(peers, 1), Fill(peers, 0),
         saved.logs, saved.lastIncludedIndex, saved.lastIncludedTerm, None, 0, saved)
  }

  const Blank := Saved(0, -1, [Dummy], 0, 0, None)

  function Reboot(n: Node): Node
    requires |n.saved.logs| >= 1
  {
    Make(n.me, n.peers, n.saved)
  }

  // ---- Elections -----------------------------------------------------------

  /** The new term is saved first; a crash may follow before the vote is. */
  function NewTerm(n: Node): Node {
    PersistState(n.(state := Candidate, currentTerm := n.currentTerm + 1))
  }

  function LaunchElection(n: Node): Node {
    PersistState(NewTerm(n).(voteFor := n.me, grantedVotes := 1))
  }

  function MakeVoteArgs(n: Node): VoteArgs
    requires |n.logs| >= 1
  {
    VoteArgs(n.currentTerm, n.me, Last(n).index, Last(n).term)
  }

  predicate RefusesOutright(n: Node, args: VoteArgs) {
    || args.term < n.currentTerm
    || (args.term == n.currentTerm && n.voteFor != -1 && n.voteFor != args.candidateId)
  }

  function RequestVote(n: Node, args: VoteArgs): (Node, VoteReply)
    requires |n.logs| >= 1
  {
    if RefusesOutright(n, args) then
      (n, VoteReply(n.currentTerm, false))
    else
      var m := UpdateTermAndStepDown(n, args.term);
      if !LogUpToDate(m, args.lastLogIndex, args.lastLogTerm)
      then (m, VoteReply(m.currentTerm, false))
      else (PersistState(m.(voteFor := args.candidateId)), VoteReply(m.currentTerm, true))
  }

  function SetIndices(n: Node, peer: nat, matchIdx: int): Node
    requires peer < |n.nextIndex| == |n.matchIndex|
  {
    n.(matchIndex := n.matchIndex[peer := matchIdx], nextIndex := n.nextIndex[peer := matchIdx + 1])
  }

  function BecomeLeader(n: Node): Node
    requires Valid(n)
  {
    var last := Last(n).index;
    SetIndices(n.(state := Leader,
                  nextIndex := Fill(n.peers, last + 1),
                  matchIndex := Fill(n.peers, 0)),
               n.me, last)
  }

  function HandleVoteReply(n: Node, args: VoteArgs, reply: VoteReply): Node
    requires Valid(n)
  {
    if n.state != Candidate || n.currentTerm != args.term then n
    else if reply.granted then
      var m := n.(grantedVotes := n.grantedVotes + 1);
      if m.grantedVotes > n.peers / 2 then BecomeLeader(m) else m
    else if reply.term > n.currentTerm then UpdateTermAndStepDown(n, reply.term)
    else n
  }

  // ---- Replication: the leader's side --------------------------------------

  function Start(n: Node, command: Command): (Node, int, int, bool)
    requires Valid(n)
  {
    if n.state != Leader then (n, -1, -1, false)
    else
      var index := Last(n).index + 1;
      var m := PersistState(n.(logs := n.logs + [LogEntry(command, n.currentTerm, index)]));
      var term: int := n.currentTerm;
      (SetIndices(m, n.me, index), index, term, true)
  }

  function ClampPrev(n: Node, prev: int): int
    requires |n.logs| >= 1
  {
    var low := if prev < First(n).index - 1 then First(n).index - 1 else prev;
    if low > Last(n).index then Last(n).index else low
  }

  function GenAppendEntryArgs(n: Node, prev: int): AppendArgs
    requires Valid(n)
  {
    var p := ClampPrev(n, prev);
    var first := First(n).index;
    AppendArgs(n.currentTerm, n.me, p,
               if p >= first && p - first < |n.logs| then n.logs[p - first].term else 0,
               n.logs[p - first + 1..], n.commitIndex)
  }

  function MakeInstallSnapShotArgs(n: Node): SnapArgs
    requires |n.logs| >= 1
  {
    SnapArgs(n.currentTerm, n.me, First(n).index, First(n).term, n.saved.image)
  }

  /** Is the peer so far behind that it must be sent the snapshot? */
  predicate Behind(n: Node, peer: nat)
    requires Valid(n) && peer < n.peers
  {
    n.nextIndex[peer] - 1 < First(n).index
  }

  function Advance(n: Node): Node
    requires Valid(n)
  {
    var x := Selection.KthSmallest(n.matchIndex, Selection.MajorityRank(n.peers));
    if x > n.commitIndex && LogMatched(n, x, n.currentTerm) then n.(commitIndex := x) else n
  }

  function AcceptNewLogEntries(n: Node, peer: nat, args: AppendArgs): Node
    requires Valid(n) && peer < n.peers
  {
    Advance(SetIndices(n, peer, args.prevLogIndex + |args.entries|))
  }

  function Clamp(x: int, low: int, high: int): int {
    var y := if x < low then low else x;
    if y > high then high else y
  }

  /** Where the leader looks next after a rejection. */
  function RollBackIndex(n: Node, args: AppendArgs, reply: AppendReply): int
    requires Valid(n) && args.prevLogIndex <= Last(n).index
  {
    if reply.conflictTerm == -1 then reply.conflictIndex
    else
      var first := First(n).index;
      var idx := first + Search(n.logs, 0, args.prevLogIndex - first, reply.conflictTerm);
      if idx <= args.prevLogIndex && n.logs[idx - first].term == reply.conflictTerm
      then idx + 1
      else reply.conflictIndex
  }

  function RollBackToConflictTerm(n: Node, peer: nat, args: AppendArgs, reply: AppendReply): Node
    requires Valid(n) && peer < n.peers && args.prevLogIndex <= Last(n).index
  {
    n.(nextIndex := n.nextIndex[peer :=
      Clamp(RollBackIndex(n, args, reply), First(n).index, Last(n).index + 1)])
  }

  predicate Leads(n: Node, term: nat) {
    n.state == Leader && n.currentTerm == term
  }

  function HandleAppendReply(n: Node, peer: nat, args: AppendArgs, reply: AppendReply): Node
    requires Valid(n) && peer < n.peers
    requires Leads(n, args.term) ==> args.prevLogIndex <= Last(n).index
  {
    if !Leads(n, args.term) then n
    else if reply.success then AcceptNewLogEntries(n, peer, args)
    else if reply.term > n.currentTerm then UpdateTermAndStepDown(n, reply.term)
    else RollBackToConflictTerm(n, peer, args, reply)
  }

  function HandleSnapReply(n: Node, peer: nat, args: SnapArgs, reply: SnapReply): Node
    requires Valid(n) && peer < n.peers
  {
    if !Leads(n, args.term) then n
    else if reply.term > n.currentTerm then UpdateTermAndStepDown(n, reply.term)
    else SetIndices(n, peer, args.lastIncludedIndex)
  }

  // ---- Replication: the follower's side ------------------------------------

  /** Entries are numbered on from the one before them. */
  predicate Numbered(args: AppendArgs) {
    && args.prevLogIndex >= 0
    && forall k | 0 <= k < |args.entries| :: args.entries[k].index == args.prevLogIndex + 1 + k
  }

  /** The first entry from k on that the log lacks or holds in another term. */
  function FirstNew(logs: Log, first: nat, entries: Log, k: nat): (r: nat)
    requires k <= |entries|
    requires forall i | k <= i < |entries| :: entries[i].index >= first
    ensures k <= r <= |entries|
    decreases |entries| - k
  {
    if k == |entries| then k
    else
      var p := entries[k].index - first;
      if p >= |logs| || logs[p].term != entries[k].term then k
      else FirstNew(logs, first, entries, k + 1)
  }

  function StoreEntries(n: Node, args: AppendArgs): Node
    requires Valid(n) && Numbered(args)
    requires First(n).index <= args.prevLogIndex <= Last(n).index
  {
    var first := First(n).index;
    var k := FirstNew(n.logs, first, args.entries, 0);
    if k == |args.entries| then n
    else PersistState(n.(logs := KeptPart(n, args, k) + args.entries[k..]))
  }

  /** The entries before the first new one; it is at most one past the end. */
  function KeptPart(n: Node, args: AppendArgs, k: nat): Log
    requires Valid(n) && Numbered(args) && k < |args.entries|
    requires First(n).index <= args.prevLogIndex <= Last(n).index
    requires k == FirstNew(n.logs, First(n).index, args.entries, 0)
  {
    FirstNewFits(n.logs, First(n).index, args.entries, 0);
    n.logs[..args.entries[k].index - First(n).index]
  }

  lemma {:induction false} FirstNewFits(logs: Log, first: nat, entries: Log, k: nat)
    requires k < |entries|
    requires forall i | k <= i < |entries| :: entries[i].index == entries[k].index + (i - k) >= first
    requires entries[k].index - first <= |logs|
    ensures var r := FirstNew(logs, first, entries, k);
            r < |entries| ==> entries[r].index - first <= |logs|
    decreases |entries| - k
  {
    var p := entries[k].index - first;
    if p < |logs| && logs[p].term == entries[k].term && k + 1 < |entries| {
      FirstNewFits(logs, first, entries, k + 1);
    }
  }

  function LearnCommit(n: Node, leaderCommit: nat): Node
    requires Valid(n)
  {
    var x := if leaderCommit < Last(n).index then leaderCommit else Last(n).index;
    if x > n.commitIndex then n.(commitIndex := x) else n
  }

  function Reject(n: Node, index: int, term: int): AppendReply {
    AppendReply(n.currentTerm, false, index, term)
  }

  /** The answer to a request whose previous entry is not in the log. */
  function Mismatch(n: Node, args: AppendArgs): AppendReply
    requires Valid(n) && First(n).index <= args.prevLogIndex
  {
    var first := First(n).index;
    if Last(n).index < args.prevLogIndex then Reject(n, Last(n).index + 1, -1)
    else if !ValidIndex(n, args.prevLogIndex) then Reject(n, first, -1)
    else
      var term := n.logs[args.prevLogIndex - first].term;
      Reject(n, first + Search(n.logs, 0, args.prevLogIndex - first + 1, term), term)
  }

  function AppendEntry(n: Node, args: AppendArgs): (Node, AppendReply)
    requires Valid(n) && Numbered(args)
  {
    if args.term < n.currentTerm then (n, Reject(n, 0, 0))
    else
      var m := UpdateTermAndStepDown(n, args.term).(state := Follower);
      if args.prevLogIndex < First(m).index then (m, Reject(m, First(m).index, -1))
      else if !LogMatched(m, args.prevLogIndex, args.prevLogTerm) then (m, Mismatch(m, args))
      else
        StoreValid(m, args);
        var s := LearnCommit(StoreEntries(m, args), args.leaderCommit);
        (s, AppendReply(s.currentTerm, true, 0, 0))
  }

  lemma StoreValid(n: Node, args: AppendArgs)
    requires Valid(n) && Numbered(args)
    requires First(n).index <= args.prevLogIndex <= Last(n).index
    ensures Valid(StoreEntries(n, args))
  {
    var first := First(n).index;
    if args.entries != [] {
      FirstNewFits(n.logs, first, args.entries, 0);
    }
  }

  // ---- Snapshots -----------------------------------------------------------

  function SingleLog(index: nat, term: nat): Log {
    [LogEntry(Nil, term, index)]
  }

  /** The service has a snapshot up to index: forget the log before it. */
  function Snapshot(n: Node, index: nat, image: Image): Node
    requires Valid(n)
  {
    if index <= First(n).index || index > Last(n).index then n
    else
      var b := index - First(n).index;
      var e := n.logs[b];
      Persist(n.(lastIncludedIndex := e.index, lastIncludedTerm := e.term,
                 logs := [e.(command := Nil)] + n.logs[b + 1..]),
              Some(image))
  }

  /** The log after a snapshot from the leader replaces its beginning. */
  function InstalledLog(n: Node, args: SnapArgs): Log
    requires Valid(n)
  {
    var first := First(n).index;
    var single := SingleLog(args.lastIncludedIndex, args.lastIncludedTerm);
    if args.lastIncludedIndex >= Last(n).index then single
    else if args.lastIncludedIndex >= first then
      var i := args.lastIncludedIndex - first;
      if i < |n.logs| && n.logs[i].term != args.lastIncludedTerm then single
      else if i + 1 < |n.logs| then single + n.logs[i + 1..]
      else single
    else n.logs
  }

  function Max(x: nat, y: nat): nat {
    if x > y then x else y
  }

  /** Install a newer snapshot and stage it for the service. */
  function Adopt(n: Node, args: SnapArgs): Node
    requires Valid(n)
  {
    var s := n.(lastIncludedIndex := args.lastIncludedIndex,
                lastIncludedTerm := args.lastIncludedTerm,
                logs := InstalledLog(n, args),
                commitIndex := Max(n.commitIndex, args.lastIncludedIndex),
                lastApplied := Max(n.lastApplied, args.lastIncludedIndex));
    Persist(s, args.image).(pendingSnapshot :=
      Some(SnapshotMsg(args.lastIncludedIndex, args.lastIncludedTerm, args.image)))
  }

  /** A greater term is noted in memory here, and not saved unless Adopt runs. */
  function InstallSnapShot(n: Node, args: SnapArgs): (Node, SnapReply)
    requires Valid(n)
  {
    var reply := SnapReply(n.currentTerm);
    if args.term < n.currentTerm then (n, reply)
    else
      var r := if args.term > n.currentTerm then n.(currentTerm := args.term, voteFor := -1) else n;
      var m := r.(state := Follower);
      (if args.lastIncludedIndex <= m.lastApplied then m else Adopt(m, args), reply)
  }

  // ---- Applying ------------------------------------------------------------

  /** One round of the applier: what it takes to send to the service, if any. */
  function Take(n: Node): (Node, Option<ApplyMsg>)
    requires Valid(n)
  {
    if n.commitIndex <= n.lastApplied && n.pendingSnapshot.None? then (n, None)
    else if n.pendingSnapshot.Some? then (n.(pendingSnapshot := None), n.pendingSnapshot)
    else if n.lastApplied < First(n).index then (n.(lastApplied := First(n).index), None)
    else
      var next := n.lastApplied + 1;
      var i := next - First(n).index;
      if next > n.commitIndex then (n, None)
      else if i < 0 || i >= |n.logs| then (n.(lastApplied := First(n).index), None)
      else (n.(lastApplied := next), Some(CommandMsg(n.logs[i].index, n.logs[i].command)))
  }
}
