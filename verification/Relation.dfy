/**
 * How a peer with a trimmed log stands for a server with a full one, and what
 * the messages of a cluster say about its history.
 */
module Relation {
  import opened Payload
  import opened RaftTypes
  import opened RaftSpec
  import opened RaftHistory
  import N = RaftNode

  /** The part of a full log a peer keeps once everything up to b is compacted. */
  function Suffix(l: Log, b: nat): Log
    requires b < |l|
  {
    [LogEntry(Nil, l[b].term, b)] + l[b + 1..]
  }

  // ---- One peer ------------------------------------------------------------

  ghost predicate Core(n: Node, r: Server, i: nat, size: nat) {
    && n.me == i < n.peers == size == |n.nextIndex| == |n.matchIndex|
    && n.currentTerm == r.term && n.voteFor == r.vote && n.state == r.role
    && n.commitIndex == r.commit
    && r.base < |r.log| && n.logs == Suffix(r.log, r.base)
    && n.lastIncludedIndex == r.base && n.lastIncludedTerm == r.log[r.base].term
    && n.saved == Saved(r.pterm, r.pvote, n.logs, r.base, r.log[r.base].term, n.saved.image)
  }

  ghost predicate AppliedOk(n: Node, r: Server) {
    && r.base <= n.lastApplied <= r.commit
    && (n.pendingSnapshot.Some? ==>
          && n.lastApplied == r.base >= 1
          && n.pendingSnapshot.value == SnapshotMsg(r.base, n.lastIncludedTerm, n.saved.image))
  }

  /** What a leader believes a peer has, the peer acknowledged. */
  ghost predicate MatchOk(a: Spec, n: Node) {
    n.state == Leader ==>
      forall p: nat | p < |n.matchIndex| ::
        n.matchIndex[p] <= 0 || Acked(a, p, n.currentTerm, n.matchIndex[p])
  }

  /** Votes counted in an election were cast for this candidate. */
  ghost predicate TallyOk(a: Spec, i: nat, n: Node, tally: set<nat>) {
    n.state == Candidate ==>
      && i in tally && n.grantedVotes == |tally|
      && forall v | v in tally ::
           v < a.n && (n.currentTerm, v) in a.votes && a.votes[(n.currentTerm, v)].cand == i
  }

  ghost predicate NodeOk(a: Spec, i: nat, n: Node, tally: set<nat>) {
    && i < |a.servers|
    && Core(n, a.servers[i], i, a.n)
    && AppliedOk(n, a.servers[i])
    && MatchOk(a, n) && TallyOk(a, i, n, tally)
  }

  // ---- Messages ------------------------------------------------------------

  ghost predicate VoteArgsOk(a: Spec, from: nat, args: VoteArgs) {
    && args.candidateId == from && (args.term, from) in a.cands
    && var l := a.cands[(args.term, from)];
       |l| >= 1 && args.lastLogIndex == |l| - 1 && args.lastLogTerm == LastTerm(l)
  }

  /** A request carries a stretch of its leader's log and a commit index inside it. */
  ghost predicate AppendArgsOk(a: Spec, args: AppendArgs) {
    && args.term in a.terms && args.prevLogIndex >= 0
    && var l := a.terms[args.term].log; var end := args.prevLogIndex + |args.entries|;
       && end < |l|
       && args.prevLogTerm == l[args.prevLogIndex].term
       && args.entries == l[args.prevLogIndex + 1..end + 1]
       && args.leaderCommit <= end
       && AgreedTo(a, l, args.leaderCommit, args.term)
  }

  ghost predicate SnapArgsOk(a: Spec, args: SnapArgs) {
    && args.term in a.terms
    && var l := a.terms[args.term].log; var m := args.lastIncludedIndex;
       && m < |l| && args.lastIncludedTerm == l[m].term
       && AgreedTo(a, l, m, args.term)
  }

  // ---- Monotonicity in the history -----------------------------------------

  lemma AppendArgsExt(a: Spec, b: Spec, args: AppendArgs)
    requires Ext(a, b) && AppendArgsOk(a, args)
    ensures AppendArgsOk(b, args)
  {
    var t := args.term;
    var k, l := a.terms[t].log, b.terms[t].log;
    var end := args.prevLogIndex + |args.entries|;
    PrefixExt(a, b, t, end + 1);
    assert k[args.prevLogIndex + 1..end + 1] == k[..end + 1][args.prevLogIndex + 1..];
    assert l[args.prevLogIndex + 1..end + 1] == l[..end + 1][args.prevLogIndex + 1..];
    assert k[args.prevLogIndex] == k[..end + 1][args.prevLogIndex];
    AgreedToExt(a, b, k, args.leaderCommit, t, t);
    PrefixExt(a, b, t, args.leaderCommit + 1);
  }

  lemma SnapArgsExt(a: Spec, b: Spec, args: SnapArgs)
    requires Ext(a, b) && SnapArgsOk(a, args)
    ensures SnapArgsOk(b, args)
  {
    var t, m := args.term, args.lastIncludedIndex;
    PrefixExt(a, b, t, m + 1);
    assert a.terms[t].log[..m + 1][m] == b.terms[t].log[..m + 1][m];
    AgreedToExt(a, b, a.terms[t].log, m, t, t);
  }

  // ---- A step of one server ------------------------------------------------

  /** The history grew and at most server i changed. */
  ghost predicate StepOf(a: Spec, b: Spec, i: nat) {
    && Inv(b) && Ext(a, b)
    && |b.servers| == |a.servers|
    && forall k | 0 <= k < |a.servers| && k != i :: b.servers[k] == a.servers[k]
  }

  lemma StepOfTrans(a: Spec, b: Spec, c: Spec, i: nat)
    requires StepOf(a, b, i) && StepOf(b, c, i)
    ensures StepOf(a, c, i)
  {
    ExtTrans(a, b, c);
  }

  lemma NodeExt(a: Spec, b: Spec, i: nat, n: Node, tally: set<nat>)
    requires Ext(a, b) && NodeOk(a, i, n, tally) && b.servers[i] == a.servers[i]
    ensures NodeOk(b, i, n, tally)
  {
    forall p: nat | n.state == Leader && p < |n.matchIndex|
      ensures n.matchIndex[p] <= 0 || Acked(b, p, n.currentTerm, n.matchIndex[p])
    {
      assert n.matchIndex[p] <= 0 || Acked(a, p, n.currentTerm, n.matchIndex[p]);
    }
  }

  // ---- Suffixes ------------------------------------------------------------

  lemma SuffixFacts(l: Log, b: nat)
    requires Shape(l) && b < |l|
    ensures var s := Suffix(l, b);
            && |s| == |l| - b
            && s[0] == LogEntry(Nil, l[b].term, b)
            && (forall i | 0 <= i < |s| :: s[i].index == b + i && s[i].term == l[b + i].term)
            && (forall i | 1 <= i < |s| :: s[i] == l[b + i])
            && s[|s| - 1].index == |l| - 1 && s[|s| - 1].term == LastTerm(l)
  {
  }

  /** What follows index p is the same in the suffix and in the full log. */
  lemma SuffixTail(l: Log, b: nat, p: nat)
    requires b <= p < |l|
    ensures Suffix(l, b)[p - b + 1..] == l[p + 1..]
  {
  }

  lemma SuffixEntry(l: Log, b: nat, k: nat)
    requires b < k < |l|
    ensures |Suffix(l, b)| == |l| - b && Suffix(l, b)[k - b] == l[k]
  {
  }

  lemma NodeValid(n: Node, r: Server, i: nat, size: nat)
    requires Core(n, r, i, size) && Shape(r.log)
    ensures N.Valid(n) && |n.saved.logs| >= 1
    ensures N.First(n).index == r.base && N.First(n).term == r.log[r.base].term
    ensures N.Last(n).index == |r.log| - 1 && N.Last(n).term == LastTerm(r.log)
    ensures forall k | r.base <= k < |r.log| :: n.logs[k - r.base].term == r.log[k].term
  {
    SuffixFacts(r.log, r.base);
    forall k | r.base <= k < |r.log| ensures n.logs[k - r.base].term == r.log[k].term {
      assert n.logs[k - r.base].index == k;
    }
  }

  lemma MatchedMeans(n: Node, r: Server, i: nat, size: nat, index: int, term: nat)
    requires Core(n, r, i, size) && Shape(r.log)
    ensures |n.logs| >= 1
    ensures N.LogMatched(n, index, term) <==> r.base <= index < |r.log| && r.log[index].term == term
  {
    NodeValid(n, r, i, size);
  }
}
