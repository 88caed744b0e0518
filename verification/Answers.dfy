/**
 * What the handlers answer and do, not only what they may: when a vote is
 * granted, a request accepted, an entry committed and an election won.
 */
module Answers {
  import opened Payload
  import opened Quorums
  import opened RaftTypes
  import opened RaftSpec
  import opened RaftHistory
  import opened Relation
  import opened SimElection
  import opened SimLeader
  import opened SimFollower
  import opened Refinement
  import opened Safety
  import Delivery
  import KvMachine
  import KvMeaning
  import KvReplicas
  import Selection
  import N = RaftNode
  import C = Cluster

  // ---- Peers and messages of a run -----------------------------------------

  /** The specification state behind a moment of the run, with peer x. */
  lemma Behind(cs: seq<C.State>, k: nat, x: nat) returns (a: Spec)
    requires C.IsRun(cs) && At(cs, k, x)
    ensures ClusterInv(a, cs[k]) && Inv(a) && x < |a.servers| == a.n == |cs[k].peers|
    ensures NodeOk(a, x, NodeOf(cs, k, x), cs[k].peers[x].tally) && N.Valid(NodeOf(cs, k, x))
    ensures ServerOk(a, x, a.servers[x]) && Core(NodeOf(cs, k, x), a.servers[x], x, a.n)
    ensures NodeOf(cs, k, x).me == x && NodeOf(cs, k, x).peers == |cs[k].peers|
  {
    hide C.IsRun, RaftSpec.Inv, ClusterInv, PeerOk, ServerOk, Core, AppliedOk, N.Valid, Ext, NodeOk;
    var specs := RunRefines(cs);
    a := specs[k];
    PeerIn(specs, cs, k, x);
    PeerBasics(a, x, cs[k].peers[x]);
    PeerValid(a, x, cs[k].peers[x]);
  }

  lemma Sent(a: Spec, c: C.State, m: C.Message)
    requires ClusterInv(a, c) && m in c.msgs
    ensures MessageOk(a, m)
  {
  }

  // ---- Votes ---------------------------------------------------------------

  /** The voter is free to vote for the candidate in this term. */
  predicate MayVote(n: Node, args: VoteArgs) {
    && args.term >= n.currentTerm
    && (args.term > n.currentTerm || n.voteFor == -1 || n.voteFor == args.candidateId)
  }

  /** A vote is granted exactly to a candidate whose full log is at least as up to date. */
  lemma VoteMeans(a: Spec, i: nat, n: Node, tally: set<nat>, args: VoteArgs)
    requires Inv(a) && NodeOk(a, i, n, tally) && VoteArgsOk(a, args.candidateId, args)
    ensures |n.logs| >= 1 && |a.servers[i].log| >= 1
    ensures var (m, reply) := N.RequestVote(n, args);
            && (reply.granted <==>
                  MayVote(n, args) && UpToDate(a.cands[(args.term, args.candidateId)], a.servers[i].log))
            && reply.term == m.currentTerm == N.Max(n.currentTerm, args.term)
            && (reply.granted ==> m.voteFor == m.saved.vote == args.candidateId)
            && (!reply.granted && args.term == n.currentTerm ==> m == n)
  {
    LogShape(a, i);
    VoteCheckMeans(a, n, a.servers[i], i, args);
  }

  /** The candidate's last entry is not behind the voter's. */
  predicate NotBehind(c: Node, v: Node)
    requires |c.logs| >= 1 && |v.logs| >= 1
  {
    || N.Last(c).term > N.Last(v).term
    || (N.Last(c).term == N.Last(v).term && N.Last(c).index >= N.Last(v).index)
  }

  /** The request was sent by a candidate of that term, and names its last entry. */
  ghost predicate StoodAt(cs: seq<C.State>, j: nat, args: VoteArgs) {
    && At(cs, j, args.candidateId)
    && var c := NodeOf(cs, j, args.candidateId);
       && |c.logs| >= 1 && c.state == Candidate && c.currentTerm == args.term
       && args.lastLogIndex == N.Last(c).index && args.lastLogTerm == N.Last(c).term
  }

  lemma {:induction false} RequestedBy(cs: seq<C.State>, k: nat, m: C.Message) returns (j: nat)
    requires C.IsRun(cs) && k < |cs| && m in cs[k].msgs && m.VoteReq?
    ensures j <= k && StoodAt(cs, j, m.vargs)
    decreases k
  {
    hide C.Ready;
    if k > 0 && m in cs[k - 1].msgs {
      j := RequestedBy(cs, k - 1, m);
    } else {
      assert k > 0;
      assert C.Next(cs[k - 1], cs[k - 1 + 1]);
      var st :| C.Steps(cs[k - 1], st, cs[k]);
      SentByTimeout(cs, k, st, m);
      j := k;
    }
  }

  lemma SentByTimeout(cs: seq<C.State>, k: nat, st: C.Step, m: C.Message)
    requires C.IsRun(cs) && 1 <= k < |cs| && C.Steps(cs[k - 1], st, cs[k])
    requires m in cs[k].msgs && m !in cs[k - 1].msgs && m.VoteReq?
    ensures StoodAt(cs, k, m.vargs)
  {
    hide C.IsRun, ClusterInv, RaftSpec.Inv, NodeOk, ServerOk, Core;
    var a := Behind(cs, k - 1, st.i);
    hide C.Ready, C.Safe, N.Valid;
    OnlyTimeoutAsks(cs[k - 1].peers[st.i], st, m);
  }

  lemma OnlyTimeoutAsks(p: Peer, st: C.Step, m: C.Message)
    requires C.Safe(p, st) && C.Ready(p, st) && p.node.me == st.i
    requires m in C.Act(p, st).1 && m.VoteReq?
    ensures var c := C.Act(p, st).0.node;
            && m.vargs.candidateId == st.i && |c.logs| >= 1 && c.state == Candidate && c.currentTerm == m.vargs.term
            && m.vargs.lastLogIndex == N.Last(c).index && m.vargs.lastLogTerm == N.Last(c).term
  {
    hide N.RequestVote, N.AppendEntry, N.InstallSnapShot, N.HandleVoteReply, N.HandleAppendReply, N.HandleSnapReply,
         N.Start, N.Take, N.Snapshot;
  }

  /**
   * In a run: a vote is granted if and only if the voter may still vote for
   * the candidate and the log the candidate stood with is not behind its own.
   */
  lemma VoteAnswered(cs: seq<C.State>, k: nat, y: nat, m: C.Message) returns (j: nat)
    requires C.IsRun(cs) && At(cs, k, y) && m in cs[k].msgs && m.VoteReq? && m.to == y
    ensures j <= k && StoodAt(cs, j, m.vargs) && |NodeOf(cs, k, y).logs| >= 1
    ensures var n := NodeOf(cs, k, y); var (n', reply) := N.RequestVote(n, m.vargs);
            && (reply.granted <==>
                  MayVote(n, m.vargs) && NotBehind(NodeOf(cs, j, m.vargs.candidateId), n))
            && reply.term == n'.currentTerm == N.Max(n.currentTerm, m.vargs.term)
  {
    hide C.IsRun, ClusterInv, RaftSpec.Inv, NodeOk, ServerOk, N.RequestVote, Core, N.Valid, Ext;
    j := RequestedBy(cs, k, m);
    var a := Behind(cs, k, y);
    AskedBy(a, cs[k], m);
    VoteMeans(a, y, NodeOf(cs, k, y), cs[k].peers[y].tally, m.vargs);
    LastIs(a, y, NodeOf(cs, k, y));
  }

  lemma AskedBy(a: Spec, c: C.State, m: C.Message)
    requires ClusterInv(a, c) && m in c.msgs && m.VoteReq?
    ensures VoteArgsOk(a, m.vargs.candidateId, m.vargs)
  {
    hide RaftSpec.Inv, PeerOk;
    Sent(a, c, m);
  }

  lemma LastIs(a: Spec, y: nat, n: Node)
    requires Inv(a) && y < |a.servers| && Core(n, a.servers[y], y, a.n)
    ensures |n.logs| >= 1 && |a.servers[y].log| >= 1
    ensures N.Last(n).index == |a.servers[y].log| - 1 && N.Last(n).term == LastTerm(a.servers[y].log)
  {
    LogShape(a, y);
    NodeValid(n, a.servers[y], y, a.n);
  }

  /** A new leader will offer everyone what follows its log, and knows only of its own copy. */
  predicate Fresh(n: Node) {
    && |n.logs| >= 1 && n.me < |n.matchIndex| == |n.nextIndex|
    && n.matchIndex[n.me] == N.Last(n).index
    && forall p | 0 <= p < |n.nextIndex| :: n.nextIndex[p] == N.Last(n).index + 1
  }

  lemma StartsFresh(n: Node, args: VoteArgs, reply: VoteReply)
    requires N.Valid(n) && n.state != Leader
    ensures N.HandleVoteReply(n, args, reply).state == Leader ==> Fresh(N.HandleVoteReply(n, args, reply))
  {
  }

  /** A peer that times out stands in the next term, saved with its own vote, and asks every other peer. */
  lemma TimeoutAsks(cs: seq<C.State>, k: nat, x: nat, to: nat)
    requires C.IsRun(cs) && k + 1 < |cs| && At(cs, k, x) && C.Steps(cs[k], C.Timeout(x), cs[k + 1])
    requires to < |cs[k].peers| && to != x
    ensures var n, n' := NodeOf(cs, k, x), cs[k + 1].peers[x].node;
            && |n.logs| >= 1 && n'.state == Candidate && n'.currentTerm == n'.saved.term == n.currentTerm + 1
            && n'.voteFor == n'.saved.vote == x && n'.logs == n.logs && cs[k + 1].peers[x].tally == {x}
            && C.VoteReq(x, to, VoteArgs(n'.currentTerm, x, N.Last(n).index, N.Last(n).term)) in cs[k + 1].msgs
  {
    hide C.IsRun, ClusterInv, RaftSpec.Inv, NodeOk, ServerOk, Core;
    var a := Behind(cs, k, x);
    var n' := N.LaunchElection(NodeOf(cs, k, x));
    assert C.VoteReq(x, to, N.MakeVoteArgs(n')) in C.VoteRequests(n');
  }

  /**
   * In a run: a reply makes a leader if and only if it is a vote for a
   * candidate of the current term and the votes counted are then a majority.
   */
  lemma ElectionWon(cs: seq<C.State>, k: nat, x: nat, m: C.Message)
    requires C.IsRun(cs) && At(cs, k, x) && m in cs[k].msgs && m.VoteRep? && m.to == x
    requires C.Ready(cs[k].peers[x], C.DeliverVoteRep(x, m))
    ensures N.Valid(NodeOf(cs, k, x))
    ensures var p := cs[k].peers[x]; var n' := N.HandleVoteReply(p.node, m.vargs, m.vreply);
            var votes := if m.vreply.granted then p.tally + {m.from} else p.tally;
            var running := p.node.state == Candidate && p.node.currentTerm == m.vargs.term;
            && (n'.state == Leader <==>
                  p.node.state == Leader || (running && m.vreply.granted && IsQuorum(|cs[k].peers|, votes)))
            && (running && !m.vreply.granted && m.vreply.term > p.node.currentTerm ==>
                  n'.state == Follower && n'.currentTerm == m.vreply.term)
            && (!running ==> n' == p.node)
            && (n'.state == Leader != p.node.state ==> Fresh(n'))
  {
    hide C.IsRun, RaftSpec.Inv, ServerOk, Core, AppliedOk, MatchOk, N.Valid, PeerOk;
    var a := Behind(cs, k, x);
    Sent(a, cs[k], m);
    var p := cs[k].peers[x];
    if p.node.state != Leader { StartsFresh(p.node, m.vargs, m.vreply); }
    hide Fresh;
    if p.node.state == Candidate && p.node.currentTerm == m.vargs.term {
      assert TallyOk(a, x, p.node, p.tally);
      assert |p.tally + {m.from}| == |p.tally| + 1;
    }
  }

  // ---- Replication: the follower -------------------------------------------

  /** The follower's full log has the entry the request starts from. */
  predicate HasPrev(r: Server, args: AppendArgs) {
    r.base <= args.prevLogIndex < |r.log| && r.log[args.prevLogIndex].term == args.prevLogTerm
  }

  /** Accepted exactly when the previous entry is there; the leader's commit index is then adopted. */
  lemma AppendMeans(a: Spec, i: nat, n: Node, tally: set<nat>, args: AppendArgs) returns (b: Spec)
    requires Inv(a) && NodeOk(a, i, n, tally) && N.Valid(n) && AppendArgsOk(a, args)
    ensures N.Numbered(args) && StepOf(a, b, i) && i < |a.servers|
    ensures var (m, reply) := N.AppendEntry(n, args);
            && NodeOk(b, i, m, tally)
            && (reply.success <==> args.term >= n.currentTerm && HasPrev(a.servers[i], args))
            && b.servers[i].commit == m.commitIndex
            && m.commitIndex == (if reply.success then N.Max(a.servers[i].commit, args.leaderCommit)
                                 else a.servers[i].commit)
            && reply.term == m.currentTerm == N.Max(n.currentTerm, args.term)
            && (args.term >= n.currentTerm ==> m.state == Follower)
  {
    var m, reply;
    hide RaftSpec.Inv, AppendArgsOk, N.AppendEntry, N.LogMatched, MatchOk, TallyOk, AppliedOk;
    b, m, reply := SimAppendEntry(a, i, n, tally, args);
    LogShape(a, i);
    MatchedMeans(n, a.servers[i], i, a.n, args.prevLogIndex, args.prevLogTerm);
  }

  /** The same of a delivery in a run; what was accepted is the request's entries. */
  lemma AppendAnswered(cs: seq<C.State>, k: nat, y: nat, m: C.Message)
    requires C.IsRun(cs) && k + 1 < |cs| && At(cs, k, y)
    requires C.Steps(cs[k], C.DeliverAppReq(y, m), cs[k + 1])
    ensures var n, n' := NodeOf(cs, k, y), cs[k + 1].peers[y].node;
            && N.Valid(n) && N.Numbered(m.aargs)
            && var reply := N.AppendEntry(n, m.aargs).1;
               && (reply.success <==>
                     m.aargs.term >= n.currentTerm && N.LogMatched(n, m.aargs.prevLogIndex, m.aargs.prevLogTerm))
               && n'.commitIndex ==
                    (if reply.success then N.Max(n.commitIndex, m.aargs.leaderCommit) else n.commitIndex)
               && n'.currentTerm == N.Max(n.currentTerm, m.aargs.term)
               && C.AppRep(y, m.from, m.aargs, reply) in cs[k + 1].msgs
               && |n'.logs| >= 1 && (reply.success ==> HoldsAll(n', m.aargs.entries))
  {
    hide C.IsRun, ClusterInv, RaftSpec.Inv, NodeOk, ServerOk, Core, AppendArgsOk, N.AppendEntry, N.LogMatched, N.Valid,
         C.Steps;
    var a := Behind(cs, k, y);
    AppendStep(a, cs[k], y, m, cs[k + 1]);
    AppendKeeps(NodeOf(cs, k, y), m.aargs);
    var b, n', reply := SimAppendEntry(a, y, NodeOf(cs, k, y), cs[k].peers[y].tally, m.aargs);
  }

  /** Every entry is there, in its term. */
  ghost predicate HoldsAll(n: Node, entries: Log)
    requires |n.logs| >= 1
  {
    forall e | e in entries :: Holds(n, e.index) && EntryOf(n, e.index).term == e.term
  }

  lemma {:induction false} SameBefore(logs: Log, first: nat, entries: Log, k: nat, i: nat)
    requires forall j | k <= j < |entries| :: entries[j].index >= first
    requires k <= i < |entries| && i < N.FirstNew(logs, first, entries, k)
    ensures entries[i].index - first < |logs| && logs[entries[i].index - first].term == entries[i].term
    decreases i - k
  {
    if k < i { SameBefore(logs, first, entries, k + 1, i); }
  }

  lemma StoreKeepsOne(n: Node, args: AppendArgs, i: nat)
    requires N.Valid(n) && N.Numbered(args) && N.First(n).index <= args.prevLogIndex <= N.Last(n).index
    requires i < |args.entries|
    ensures var m, e := N.StoreEntries(n, args), args.entries[i];
            |m.logs| >= 1 && Holds(m, e.index) && EntryOf(m, e.index).term == e.term
  {
    var first := N.First(n).index;
    var k := N.FirstNew(n.logs, first, args.entries, 0);
    if i < k { SameBefore(n.logs, first, args.entries, 0, i); }
    hide N.FirstNew;
    if k < |args.entries| { N.FirstNewFits(n.logs, first, args.entries, 0); }
  }

  lemma StoreKeeps(n: Node, args: AppendArgs)
    requires N.Valid(n) && N.Numbered(args) && N.First(n).index <= args.prevLogIndex <= N.Last(n).index
    ensures N.Valid(N.StoreEntries(n, args)) && HoldsAll(N.StoreEntries(n, args), args.entries)
  {
    N.StoreValid(n, args);
    hide N.StoreEntries, N.Numbered, N.Valid;
    var m := N.StoreEntries(n, args);
    forall e | e in args.entries ensures |m.logs| >= 1 && Holds(m, e.index) && EntryOf(m, e.index).term == e.term {
      var i :| 0 <= i < |args.entries| && args.entries[i] == e;
      StoreKeepsOne(n, args, i);
    }
  }

  lemma AppendKeeps(n: Node, args: AppendArgs)
    requires N.Valid(n) && N.Numbered(args)
    ensures var (m, reply) := N.AppendEntry(n, args);
            |m.logs| >= 1 && (reply.success ==> HoldsAll(m, args.entries))
  {
    hide N.StoreEntries, HoldsAll, N.Search, N.Numbered;
    if args.term >= n.currentTerm && N.LogMatched(n, args.prevLogIndex, args.prevLogTerm) {
      var m := N.UpdateTermAndStepDown(n, args.term).(state := Follower);
      StoreKeeps(m, args);
      SameHeld(N.StoreEntries(m, args), N.LearnCommit(N.StoreEntries(m, args), args.leaderCommit), args.entries);
    }
  }

  lemma SameHeld(n: Node, m: Node, entries: Log)
    requires |n.logs| >= 1 && m.logs == n.logs && HoldsAll(n, entries)
    ensures HoldsAll(m, entries)
  {
  }

  /** What the step does to the cluster. */
  lemma AppendStep(a: Spec, c: C.State, y: nat, m: C.Message, c': C.State)
    requires ClusterInv(a, c) && C.Steps(c, C.DeliverAppReq(y, m), c')
    ensures m.AppReq? && m in c.msgs && AppendArgsOk(a, m.aargs) && N.Numbered(m.aargs)
    ensures y < |c.peers| == |c'.peers| && N.Valid(c.peers[y].node)
    ensures var (n', reply) := N.AppendEntry(c.peers[y].node, m.aargs);
            c'.peers[y].node == n' && C.AppRep(y, m.from, m.aargs, reply) in c'.msgs
  {
    hide RaftSpec.Inv, PeerOk, AppendArgsOk, N.AppendEntry;
    Sent(a, c, m);
  }

  // ---- Replication: the leader ---------------------------------------------

  /** j is an entry of the leader's own term that a majority of match indices reach. */
  ghost predicate Ripe(n: Node, j: nat)
    requires |n.logs| >= 1
  {
    Holds(n, j) && EntryOf(n, j).term == n.currentTerm && IsQuorum(n.peers, Selection.Reach(n.matchIndex, j))
  }

  /** commitIndex becomes the greatest ripe index, if that is greater. */
  ghost predicate CommitsAll(n: Node, m: Node)
    requires |m.logs| >= 1
  {
    && n.commitIndex <= m.commitIndex
    && (forall j: nat | Ripe(m, j) :: j <= m.commitIndex)
    && (m.commitIndex > n.commitIndex ==> Ripe(m, m.commitIndex))
  }

  lemma ReachInside(n: Node, x: int)
    requires |n.matchIndex| == n.peers
    ensures IsQuorum(n.peers, Selection.Reach(n.matchIndex, x)) <==>
            2 * |Selection.Reach(n.matchIndex, x)| > n.peers
  {
  }

  /** What a majority reaches is in the leader's log. */
  lemma SelectedInLog(a: Spec, i: nat, n: Node, tally: set<nat>)
    requires Inv(a) && NodeOk(a, i, n, tally) && N.Valid(n) && n.state == Leader
    ensures Selection.KthSmallest(n.matchIndex, Selection.MajorityRank(n.peers)) <= N.Last(n).index
  {
    hide ServersOk, TermsOk, CandsOk, VotesOk, AcksKept, AcksVoted;
    var x := Selection.KthSmallest(n.matchIndex, Selection.MajorityRank(n.peers));
    Selection.MajorityReaches(n.matchIndex, x);
    var q := Selection.Reach(n.matchIndex, x);
    assert (forall p :: p !in q) ==> q == {};
    var p :| p in q;
    InvServer(a, i);
    LastIs(a, i, n);
    assert n.matchIndex[p] <= 0 || Acked(a, p, n.currentTerm, n.matchIndex[p]);
  }

  /** Terms along the log run up to the leader's own. */
  lemma TermsUpTo(a: Spec, i: nat, n: Node, j: nat, k: nat)
    requires i < |a.servers| && ServerOk(a, i, a.servers[i]) && Core(n, a.servers[i], i, a.n)
    requires |n.logs| >= 1 && j <= k && Holds(n, j) && Holds(n, k)
    ensures EntryOf(n, j).term <= EntryOf(n, k).term <= n.currentTerm
  {
    HeldIs(n, a.servers[i], i, a.n, j);
    HeldIs(n, a.servers[i], i, a.n, k);
  }

  /** If a later entry of its own term is reached, so is the selected one, and it is of that term. */
  lemma RipeBelow(a: Spec, i: nat, n: Node, j: nat, x: nat)
    requires i < |a.servers| && ServerOk(a, i, a.servers[i]) && Core(n, a.servers[i], i, a.n) && N.Valid(n)
    requires j <= x <= N.Last(n).index && Holds(n, j) && EntryOf(n, j).term == n.currentTerm
    ensures N.LogMatched(n, x, n.currentTerm)
  {
    hide ServerOk, Core;
    TermsUpTo(a, i, n, j, x);
  }

  lemma CommitAboveFirst(a: Spec, i: nat, n: Node)
    requires i < |a.servers| && ServerOk(a, i, a.servers[i]) && Core(n, a.servers[i], i, a.n)
    ensures |n.logs| >= 1 && n.logs[0].index <= n.commitIndex
  {
  }

  lemma AdvanceMeans(a: Spec, i: nat, n: Node, tally: set<nat>)
    requires Inv(a) && NodeOk(a, i, n, tally) && N.Valid(n) && n.state == Leader
    ensures CommitsAll(n, N.Advance(n)) && N.Advance(n) == n.(commitIndex := N.Advance(n).commitIndex)
  {
    hide RaftSpec.Inv, MatchOk, TallyOk, AppliedOk, Core, Selection.KthSmallest, Selection.Reach, ServerOk;
    var x, m := Selection.KthSmallest(n.matchIndex, Selection.MajorityRank(n.peers)), N.Advance(n);
    SelectedInLog(a, i, n, tally);
    InvServer(a, i);
    CommitAboveFirst(a, i, n);
    Selection.MajorityReaches(n.matchIndex, x);
    ReachInside(n, x);
    hide IsQuorum;
    forall j: nat | Ripe(m, j) ensures j <= m.commitIndex {
      Selection.MajorityReaches(n.matchIndex, j);
      ReachInside(n, j);
      if j > n.commitIndex { RipeBelow(a, i, n, j, x); }
    }
  }

  /**
   * In a run: after a success every entry of the leader's term that a majority
   * of match indices reach is committed, and nothing else is newly committed.
   */
  lemma MajorityCommits(cs: seq<C.State>, k: nat, x: nat, m: C.Message)
    requires C.IsRun(cs) && At(cs, k, x) && m in cs[k].msgs && m.AppRep? && m.to == x
    requires N.Leads(NodeOf(cs, k, x), m.aargs.term) && m.areply.success
    ensures var n := NodeOf(cs, k, x);
            && N.Valid(n) && m.from < n.peers && m.aargs.prevLogIndex <= N.Last(n).index
            && var n' := N.HandleAppendReply(n, m.from, m.aargs, m.areply);
               && |n'.logs| >= 1 && CommitsAll(n, n')
               && n'.matchIndex == n.matchIndex[m.from := m.aargs.prevLogIndex + |m.aargs.entries|]
               && n'.nextIndex[m.from] == m.aargs.prevLogIndex + |m.aargs.entries| + 1
  {
    hide C.IsRun, ClusterInv, RaftSpec.Inv, NodeOk, ServerOk, Core, AppendArgsOk, N.Advance, CommitsAll, Acked;
    var a := Behind(cs, k, x);
    var n, end := NodeOf(cs, k, x), m.aargs.prevLogIndex + |m.aargs.entries|;
    RepliedOk(a, cs[k], x, m);
    SetIndicesNode(a, x, n, cs[k].peers[x].tally, m.from, end);
    var s := N.SetIndices(n, m.from, end);
    AdvanceMeans(a, x, s, cs[k].peers[x].tally);
    SameCommit(n, s, N.Advance(s));
  }

  lemma SameCommit(n: Node, s: Node, m: Node)
    requires n.commitIndex == s.commitIndex && |m.logs| >= 1 && CommitsAll(s, m)
    ensures CommitsAll(n, m)
  {
  }

  lemma RepliedOk(a: Spec, c: C.State, x: nat, m: C.Message)
    requires ClusterInv(a, c) && m in c.msgs && m.AppRep? && x < |c.peers| && N.Valid(c.peers[x].node)
    requires N.Leads(c.peers[x].node, m.aargs.term)
    ensures m.from < a.n && AppendArgsOk(a, m.aargs) && m.aargs.prevLogIndex >= 0
    ensures m.aargs.prevLogIndex <= N.Last(c.peers[x].node).index
    ensures m.areply.success ==> Acked(a, m.from, m.aargs.term, m.aargs.prevLogIndex + |m.aargs.entries|)
  {
    hide RaftSpec.Inv, AppendArgsOk, Acked, NodeOk, ServerOk;
    Sent(a, c, m);
    assert PeerOk(a, x, c.peers[x]);
    PeerBasics(a, x, c.peers[x]);
    InvServer(a, x);
    OwnRequest(a, x, c.peers[x].node, c.peers[x].tally, m.aargs);
    PrevNonNegative(a, m.aargs);
  }

  /** A leader that hears of a greater term steps down to it, from whatever reply. */
  lemma StepsDown(cs: seq<C.State>, k: nat, x: nat, m: C.Message)
    requires C.IsRun(cs) && At(cs, k, x) && m in cs[k].msgs && m.to == x && (m.AppRep? || m.SnapRep?)
    requires N.Leads(NodeOf(cs, k, x), C.TermOf(m))
    ensures var n := NodeOf(cs, k, x);
            && N.Valid(n) && m.from < n.peers
            && (m.AppRep? ==> m.aargs.prevLogIndex <= N.Last(n).index)
            && var n' := if m.AppRep? then N.HandleAppendReply(n, m.from, m.aargs, m.areply)
                         else N.HandleSnapReply(n, m.from, m.sargs, m.sreply);
               var term := if m.AppRep? then m.areply.term else m.sreply.term;
               && (term > n.currentTerm && !(m.AppRep? && m.areply.success) ==>
                     n'.state == Follower && n'.currentTerm == n'.saved.term == term)
               && (m.SnapRep? && term <= n.currentTerm ==>
                     && n'.matchIndex == n.matchIndex[m.from := m.sargs.lastIncludedIndex]
                     && n'.nextIndex[m.from] == m.sargs.lastIncludedIndex + 1)
  {
    hide C.IsRun, ClusterInv, RaftSpec.Inv, NodeOk, ServerOk, Core, AppendArgsOk, Acked;
    var a := Behind(cs, k, x);
    if m.AppRep? { RepliedOk(a, cs[k], x, m); } else { SentFrom(a, cs[k], m); }
  }

  lemma SentFrom(a: Spec, c: C.State, m: C.Message)
    requires ClusterInv(a, c) && m in c.msgs
    ensures m.from < a.n
  {
    Sent(a, c, m);
  }

  /** The message reaches to the end of the leader's log and carries its commit index, or is its snapshot. */
  ghost predicate Whole(n: Node, peer: nat, m: C.Message)
    requires |n.logs| >= 1 && peer < |n.nextIndex|
  {
    match m
    case AppReq(_, _, args) =>
      && n.logs[0].index < n.nextIndex[peer]
      && args.prevLogIndex + |args.entries| == N.Last(n).index && args.leaderCommit == n.commitIndex
      && args.term == n.currentTerm
      && forall e | e in args.entries :: Holds(n, e.index) && EntryOf(n, e.index) == e
    case SnapReq(_, _, args) =>
      && n.nextIndex[peer] <= n.logs[0].index == args.lastIncludedIndex && args.image == n.saved.image
      && args.term == n.currentTerm
    case _ => false
  }

  lemma SendsAll(cs: seq<C.State>, k: nat, x: nat, peer: nat)
    requires C.IsRun(cs) && At(cs, k, x) && NodeOf(cs, k, x).state == Leader && peer < |cs[k].peers|
    ensures N.Valid(NodeOf(cs, k, x)) && peer < NodeOf(cs, k, x).peers
    ensures Whole(NodeOf(cs, k, x), peer, C.SendTo(NodeOf(cs, k, x), peer))
  {
    hide C.IsRun, ClusterInv, RaftSpec.Inv, NodeOk, ServerOk, Core, Whole;
    var a := Behind(cs, k, x);
    SendMeans(a, x, NodeOf(cs, k, x), peer);
  }

  lemma SendMeans(a: Spec, x: nat, n: Node, peer: nat)
    requires Inv(a) && x < |a.servers| && Core(n, a.servers[x], x, a.n) && N.Valid(n) && peer < n.peers
    ensures Whole(n, peer, C.SendTo(n, peer))
  {
    hide RaftSpec.Inv, Core, Shape, Suffix, N.GenAppendEntryArgs;
    if !N.Behind(n, peer) {
      LogShape(a, x);
      var r := a.servers[x];
      var p := SentEntries(n, r, x, a.n, n.nextIndex[peer] - 1);
      LastIs(a, x, n);
      SameHeads(n, r, x, a.n);
      EntriesHeld(n, r, x, a.n, p);
    }
  }

  lemma SameHeads(n: Node, r: Server, x: nat, size: nat)
    requires Core(n, r, x, size)
    ensures n.currentTerm == r.term && n.commitIndex == r.commit
  {
  }

  lemma EntriesHeld(n: Node, r: Server, x: nat, size: nat, p: nat)
    requires Core(n, r, x, size) && Shape(r.log) && r.base <= p < |r.log|
    ensures |n.logs| >= 1 && forall e | e in r.log[p + 1..] :: Holds(n, e.index) && EntryOf(n, e.index) == e
  {
    HeldIs(n, r, x, size, p);
    forall e | e in r.log[p + 1..] ensures Holds(n, e.index) && EntryOf(n, e.index) == e {
      var i :| 0 <= i < |r.log[p + 1..]| && r.log[p + 1..][i] == e;
      HeldIs(n, r, x, size, p + 1 + i);
    }
  }

  // ---- Start ---------------------------------------------------------------

  /** Start on any reachable peer: the flag, the entry it appends, and nothing when it does not lead. */
  lemma StartAnswers(cs: seq<C.State>, k: nat, x: nat, op: Op)
    requires C.IsRun(cs) && At(cs, k, x)
    ensures var n := NodeOf(cs, k, x);
            && N.Valid(n)
            && var (n', index, term, isLeader) := N.Start(n, Cmd(op));
               && (isLeader <==> n.state == Leader)
               && (!isLeader ==> n' == n && index == term == -1)
               && (isLeader ==>
                     && |n'.logs| >= 1 && |n'.saved.logs| >= 1 && index > N.Last(n).index && term == n.currentTerm
                     && Holds(n', index) && EntryOf(n', index) == LogEntry(Cmd(op), term, index)
                     && n'.saved.logs == n'.logs && n'.logs[..|n.logs|] == n.logs
                     && x < |n'.matchIndex| && n'.matchIndex[x] == index)
  {
    hide C.IsRun, ClusterInv, RaftSpec.Inv, NodeOk, ServerOk, Core;
    var a := Behind(cs, k, x);
  }

  // ---- Snapshots -----------------------------------------------------------

  /** A snapshot is installed exactly when it is not from the past and above what was applied. */
  lemma InstallAnswers(cs: seq<C.State>, k: nat, y: nat, args: SnapArgs)
    requires C.IsRun(cs) && At(cs, k, y)
    ensures var n := NodeOf(cs, k, y);
            && N.Valid(n)
            && var (n', reply) := N.InstallSnapShot(n, args);
               && reply.term == n.currentTerm && n'.currentTerm == N.Max(n.currentTerm, args.term)
               && |n'.logs| >= 1
               && if args.term >= n.currentTerm && args.lastIncludedIndex > n.lastApplied then
                    && n'.lastApplied == n'.logs[0].index == args.lastIncludedIndex
                    && n'.pendingSnapshot ==
                         Some(SnapshotMsg(args.lastIncludedIndex, args.lastIncludedTerm, args.image))
                    && n'.commitIndex == N.Max(n.commitIndex, args.lastIncludedIndex)
                  else n'.logs == n.logs && n'.lastApplied == n.lastApplied && n'.saved == n.saved
  {
    hide C.IsRun, ClusterInv, RaftSpec.Inv, NodeOk, ServerOk, Core;
    ApplyStream(cs, k, y);
  }

  /** Forgetting the log up to an index: the image is saved, and what follows the index is kept. */
  lemma SnapshotAnswers(cs: seq<C.State>, k: nat, x: nat, index: nat, image: Image)
    requires C.IsRun(cs) && At(cs, k, x)
    ensures var n := NodeOf(cs, k, x);
            && N.Valid(n)
            && var n' := N.Snapshot(n, index, image);
               && |n'.logs| >= 1 && N.Last(n').index == N.Last(n).index
               && (if N.First(n).index < index <= N.Last(n).index then
                     && N.First(n').index == n'.saved.logs[0].index == index && n'.saved.image == Some(image)
                     && (forall j: nat | index < j && Holds(n, j) :: Holds(n', j) && EntryOf(n', j) == EntryOf(n, j))
                   else n' == n)
  {
    hide C.IsRun, ClusterInv, RaftSpec.Inv, NodeOk, ServerOk, Core;
    var a := Behind(cs, k, x);
  }

  // ---- Applying ------------------------------------------------------------

  /**
   * The applier has something to send exactly when a snapshot is staged or an
   * entry is committed and not applied: the staged snapshot, else the next entry.
   */
  lemma TakeAnswers(cs: seq<C.State>, k: nat, x: nat)
    requires C.IsRun(cs) && At(cs, k, x)
    ensures var n := NodeOf(cs, k, x);
            && N.Valid(n)
            && var (n', msg) := N.Take(n);
               && (msg.Some? <==> n.pendingSnapshot.Some? || n.lastApplied < n.commitIndex)
               && (n.pendingSnapshot.Some? ==> msg == n.pendingSnapshot && n' == n.(pendingSnapshot := None))
               && (n.pendingSnapshot.None? && msg.Some? ==>
                     && Holds(n, n.lastApplied + 1)
                     && msg.value == CommandMsg(n.lastApplied + 1, EntryOf(n, n.lastApplied + 1).command)
                     && n' == n.(lastApplied := n.lastApplied + 1))
  {
    hide C.IsRun;
    ApplyStream(cs, k, x);
  }

  /**
   * A service's reply to a new request is read off the agreed history: the
   * last value put and accepted under the key, and how many were.
   */
  lemma ServiceAnswers(cs: seq<C.State>, l: Log, k: nat, x: nat, req: KvMachine.Request)
    requires C.IsRun(cs) && HistoryOf(l, cs) && At(cs, k, x) && cs[k].peers[x].service.ready
    requires KvMachine.Known(req)
    ensures cs[k].peers[x].service.lastApplied < |l| && Shape(l[..cs[k].peers[x].service.lastApplied + 1])
    ensures var s := cs[k].peers[x].service; var log := Delivery.Requests(l[..s.lastApplied + 1]);
            KvMachine.Windowed(log + [req]) && !KvMeaning.Repeats(log, req) ==>
              KvMachine.DoOp(s.sm, req).1 == KvMeaning.NewAnswer(log, req)
  {
    hide C.IsRun, KvMachine.DoOp, KvReplicas.Represents, KvMeaning.Repeats, KvMachine.Windowed;
    var s := cs[k].peers[x].service;
    assert Agrees(l, cs[k].peers[x]);
    var log := Delivery.Requests(l[..s.lastApplied + 1]);
    if KvMachine.Windowed(log + [req]) && !KvMeaning.Repeats(log, req) {
      KvMeaning.ReplicaReplies(s.sm, log, req);
    }
  }
}
