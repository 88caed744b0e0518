/** What a leader does with its log is a step of the specification. */
module SimLeader {
  import opened Payload
  import opened Quorums
  import opened RaftTypes
  import opened RaftSpec
  import opened RaftHistory
  import opened RaftInv
  import opened Relation
  import opened SimElection
  import N = RaftNode
  import Selection

  // ---- Start ---------------------------------------------------------------

  lemma StartCore(n: Node, r: Server, i: nat, size: nat, op: Op)
    requires Core(n, r, i, size) && N.Valid(n) && n.state == Leader && Shape(r.log)
    requires r.pterm == r.term && r.vote == r.pvote
    ensures Core(N.Start(n, Cmd(op)).0, r.(log := r.log + [LogEntry(Cmd(op), r.term, |r.log|)]), i, size)
  {
    var e := LogEntry(Cmd(op), r.term, |r.log|);
    NodeValid(n, r, i, size);
    assert Suffix(r.log + [e], r.base) == Suffix(r.log, r.base) + [e];
  }

  lemma StartMatch(a: Spec, i: nat, n: Node, op: Op)
    requires MatchOk(a, n) && N.Valid(n) && n.state == Leader && i == n.me
    requires i < |a.servers| && a.servers[i].term == n.currentTerm && n.currentTerm in a.terms
    requires |a.servers[i].log| == N.Last(n).index + 1
    ensures MatchOk(Append(a, i, Cmd(op)), N.Start(n, Cmd(op)).0)
  {
    var b := Append(a, i, Cmd(op));
    var m := N.Start(n, Cmd(op)).0;
    AckExt(Extend(a, i, Cmd(op)), i, n.currentTerm, |a.servers[i].log|);
    forall p: nat | p < |m.matchIndex|
      ensures m.matchIndex[p] <= 0 || Acked(b, p, m.currentTerm, m.matchIndex[p])
    {
      if p != i { assert n.matchIndex[p] <= 0 || Acked(a, p, n.currentTerm, n.matchIndex[p]); }
    }
  }

  lemma StartNode(a: Spec, i: nat, n: Node, tally: set<nat>, op: Op)
    requires NodeOk(a, i, n, tally) && N.Valid(n) && n.state == Leader
    requires ServerOk(a, i, a.servers[i])
    ensures NodeOk(Append(a, i, Cmd(op)), i, N.Start(n, Cmd(op)).0, tally)
  {
    var r := a.servers[i];
    NodeValid(n, r, i, a.n);
    StartCore(n, r, i, a.n, op);
    StartMatch(a, i, n, op);
  }

  lemma SimStart(a: Spec, i: nat, n: Node, tally: set<nat>, op: Op) returns (b: Spec)
    requires Inv(a) && NodeOk(a, i, n, tally) && N.Valid(n)
    ensures StepOf(a, b, i)
    ensures NodeOk(b, i, N.Start(n, Cmd(op)).0, tally)
  {
    if n.state == Leader {
      assert ServerOk(a, i, a.servers[i]);
      AppendInv(a, i, Cmd(op));
      StartNode(a, i, n, tally, op);
      b := Append(a, i, Cmd(op));
    } else {
      b := a;
      StepRefl(a, i);
    }
  }

  // ---- Sending -------------------------------------------------------------

  /** The entries sent are the whole suffix after the previous entry. */
  lemma SentEntries(n: Node, r: Server, i: nat, size: nat, prev: int) returns (p: nat)
    requires Core(n, r, i, size) && Shape(r.log) && N.Valid(n) && N.First(n).index <= prev
    ensures r.base <= p < |r.log|
    ensures N.GenAppendEntryArgs(n, prev) ==
              AppendArgs(r.term, i, p, r.log[p].term, r.log[p + 1..], r.commit)
  {
    NodeValid(n, r, i, size);
    p := N.ClampPrev(n, prev);
    SuffixTail(r.log, r.base, p);
  }

  /** So the leader's commit index never points past what it sends. */
  lemma SentAppend(a: Spec, i: nat, n: Node, tally: set<nat>, prev: int)
    requires NodeOk(a, i, n, tally) && N.Valid(n) && n.state == Leader
    requires ServerOk(a, i, a.servers[i]) && N.First(n).index <= prev
    ensures AppendArgsOk(a, N.GenAppendEntryArgs(n, prev))
  {
    var r := a.servers[i];
    var p := SentEntries(n, r, i, a.n, prev);
    WholeSuffixOk(a, r.term, i, p, r.commit);
  }

  lemma WholeSuffixOk(a: Spec, t: nat, i: nat, p: nat, c: nat)
    requires t in a.terms && p < |a.terms[t].log| && AgreedTo(a, a.terms[t].log, c, t)
    ensures var l := a.terms[t].log;
            AppendArgsOk(a, AppendArgs(t, i, p, l[p].term, l[p + 1..], c))
  {
    var l := a.terms[t].log;
    assert l[p + 1..] == l[p + 1..p + |l[p + 1..]| + 1];
  }

  lemma SentSnapshot(a: Spec, i: nat, n: Node, tally: set<nat>)
    requires NodeOk(a, i, n, tally) && N.Valid(n) && n.state == Leader
    requires ServerOk(a, i, a.servers[i])
    ensures SnapArgsOk(a, N.MakeInstallSnapShotArgs(n))
  {
    NodeValid(n, a.servers[i], i, a.n);
  }

  // ---- Replies -------------------------------------------------------------

  lemma SetIndicesNode(a: Spec, i: nat, n: Node, tally: set<nat>, peer: nat, x: int)
    requires NodeOk(a, i, n, tally) && N.Valid(n) && n.state == Leader && peer < n.peers
    requires x <= 0 || Acked(a, peer, n.currentTerm, x)
    ensures NodeOk(a, i, N.SetIndices(n, peer, x), tally) && N.Valid(N.SetIndices(n, peer, x))
  {
    var m := N.SetIndices(n, peer, x);
    forall p: nat | p < |m.matchIndex|
      ensures m.matchIndex[p] <= 0 || Acked(a, p, m.currentTerm, m.matchIndex[p])
    {
      if p != peer { assert n.matchIndex[p] <= 0 || Acked(a, p, n.currentTerm, n.matchIndex[p]); }
    }
  }

  /** The index selected from matchIndex is one a majority acknowledged. */
  lemma SelectedIsCommitted(a: Spec, i: nat, n: Node, tally: set<nat>, x: nat)
    requires NodeOk(a, i, n, tally) && N.Valid(n) && n.state == Leader && x >= 1
    requires x <= Selection.KthSmallest(n.matchIndex, Selection.MajorityRank(n.peers))
    requires n.currentTerm in a.terms && Has(a.terms[n.currentTerm].log, n.currentTerm, x)
    ensures Committed(a, n.currentTerm, x)
  {
    Selection.MajorityReaches(n.matchIndex, x);
    var q := Selection.Reach(n.matchIndex, x);
    forall p | p in q ensures p in AckSet(a, n.currentTerm, x) {
      assert Acked(a, p, n.currentTerm, n.matchIndex[p]);
    }
    QuorumGrows(a.n, q, AckSet(a, n.currentTerm, x));
  }

  lemma AdvanceAgreed(a: Spec, i: nat, n: Node, tally: set<nat>, x: nat)
    requires NodeOk(a, i, n, tally) && N.Valid(n) && n.state == Leader && x >= 1
    requires ServerOk(a, i, a.servers[i])
    requires x == Selection.KthSmallest(n.matchIndex, Selection.MajorityRank(n.peers))
    requires N.LogMatched(n, x, n.currentTerm)
    ensures AgreedTo(a, a.servers[i].log, x, n.currentTerm)
  {
    var r := a.servers[i];
    MatchedMeans(n, r, i, a.n, x, n.currentTerm);
    SelectedIsCommitted(a, i, n, tally, x);
  }

  lemma LearnNode(a: Spec, i: nat, n: Node, tally: set<nat>, x: nat)
    requires NodeOk(a, i, n, tally) && n.commitIndex <= x
    ensures NodeOk(Learn(a, i, x), i, n.(commitIndex := x), tally)
  {
    PutExt(a, i, Learn(a, i, x).servers[i]);
    NodeExtSame(a, Learn(a, i, x), i, n, n.(commitIndex := x), tally);
  }

  lemma SimLearn(a: Spec, i: nat, n: Node, tally: set<nat>, x: nat) returns (b: Spec)
    requires Inv(a) && NodeOk(a, i, n, tally) && n.commitIndex <= x
    requires AgreedTo(a, a.servers[i].log, x, a.servers[i].term)
    ensures StepOf(a, b, i) && b == Learn(a, i, x)
    ensures NodeOk(b, i, n.(commitIndex := x), tally)
  {
    hide Inv, Ext;
    LearnNode(a, i, n, tally, x);
    hide NodeOk, AgreedTo;
    LearnInv(a, i, x);
    b := Learn(a, i, x);
  }

  lemma SimCommit(a: Spec, i: nat, n: Node, tally: set<nat>, x: nat) returns (b: Spec)
    requires Inv(a) && NodeOk(a, i, n, tally) && N.Valid(n) && n.state == Leader
    requires x == Selection.KthSmallest(n.matchIndex, Selection.MajorityRank(n.peers))
    requires x > n.commitIndex && N.LogMatched(n, x, n.currentTerm)
    ensures StepOf(a, b, i)
    ensures NodeOk(b, i, n.(commitIndex := x), tally)
  {
    assert ServerOk(a, i, a.servers[i]);
    AdvanceAgreed(a, i, n, tally, x);
    b := SimLearn(a, i, n, tally, x);
  }

  lemma SimAdvance(a: Spec, i: nat, n: Node, tally: set<nat>) returns (b: Spec, m: Node)
    requires Inv(a) && NodeOk(a, i, n, tally) && N.Valid(n) && n.state == Leader
    ensures StepOf(a, b, i)
    ensures m == N.Advance(n) && NodeOk(b, i, m, tally)
  {
    var x := Selection.KthSmallest(n.matchIndex, Selection.MajorityRank(n.peers));
    m := N.Advance(n);
    if x > n.commitIndex && N.LogMatched(n, x, n.currentTerm) {
      b := SimCommit(a, i, n, tally, x);
    } else {
      b := a;
      StepRefl(a, i);
    }
  }

  lemma RollBackNode(a: Spec, i: nat, n: Node, tally: set<nat>,
                     peer: nat, args: AppendArgs, reply: AppendReply)
    requires NodeOk(a, i, n, tally) && N.Valid(n) && peer < n.peers
    requires args.prevLogIndex <= N.Last(n).index
    ensures NodeOk(a, i, N.RollBackToConflictTerm(n, peer, args, reply), tally)
  {
    var m := N.RollBackToConflictTerm(n, peer, args, reply);
    ExtRefl(a);
    NodeExtSame(a, a, i, n, m, tally);
  }

  /** A request of the leader's own term names an entry still in its log. */
  lemma OwnRequest(a: Spec, i: nat, n: Node, tally: set<nat>, args: AppendArgs)
    requires NodeOk(a, i, n, tally) && N.Valid(n) && ServerOk(a, i, a.servers[i])
    requires AppendArgsOk(a, args)
    ensures N.Leads(n, args.term) ==> args.prevLogIndex <= N.Last(n).index
  {
    NodeValid(n, a.servers[i], i, a.n);
  }

  lemma SimAccepted(a: Spec, i: nat, n: Node, tally: set<nat>, peer: nat, args: AppendArgs)
    returns (b: Spec, m: Node)
    requires Inv(a) && NodeOk(a, i, n, tally) && N.Valid(n) && peer < n.peers
    requires N.Leads(n, args.term) && args.prevLogIndex >= 0
    requires Acked(a, peer, args.term, args.prevLogIndex + |args.entries|)
    ensures StepOf(a, b, i)
    ensures NodeOk(b, i, m, tally) && m == N.AcceptNewLogEntries(n, peer, args)
  {
    var k := AcceptIsAdvance(n, peer, args);
    SetIndicesNode(a, i, n, tally, peer, args.prevLogIndex + |args.entries|);
    b, m := SimAdvance(a, i, k, tally);
  }

  lemma AcceptIsAdvance(n: Node, peer: nat, args: AppendArgs) returns (k: Node)
    requires N.Valid(n) && peer < n.peers
    ensures k == N.SetIndices(n, peer, args.prevLogIndex + |args.entries|) && N.Valid(k)
    ensures N.AcceptNewLogEntries(n, peer, args) == N.Advance(k)
  {
    k := N.SetIndices(n, peer, args.prevLogIndex + |args.entries|);
  }

  lemma SimAppendReply(a: Spec, i: nat, n: Node, tally: set<nat>,
                       peer: nat, args: AppendArgs, reply: AppendReply) returns (b: Spec, m: Node)
    requires Inv(a) && NodeOk(a, i, n, tally) && N.Valid(n) && peer < n.peers
    requires N.Leads(n, args.term) ==> args.prevLogIndex <= N.Last(n).index
    requires args.prevLogIndex >= 0
    requires reply.success ==> Acked(a, peer, args.term, args.prevLogIndex + |args.entries|)
    ensures StepOf(a, b, i)
    ensures NodeOk(b, i, m, tally) && m == N.HandleAppendReply(n, peer, args, reply)
  {
    m := N.HandleAppendReply(n, peer, args, reply);
    if !N.Leads(n, args.term) {
      b := a;
      StepRefl(a, i);
    } else if reply.success {
      b, m := SimAccepted(a, i, n, tally, peer, args);
    } else if reply.term > n.currentTerm {
      b := SimUpdateTerm(a, i, n, tally, reply.term);
    } else {
      b := a;
      StepRefl(a, i);
      RollBackNode(a, i, n, tally, peer, args, reply);
    }
  }

  lemma SimSnapReply(a: Spec, i: nat, n: Node, tally: set<nat>,
                     peer: nat, args: SnapArgs, reply: SnapReply) returns (b: Spec)
    requires Inv(a) && NodeOk(a, i, n, tally) && N.Valid(n) && peer < n.peers
    requires reply.term <= args.term ==> Acked(a, peer, args.term, args.lastIncludedIndex)
    ensures StepOf(a, b, i)
    ensures NodeOk(b, i, N.HandleSnapReply(n, peer, args, reply), tally)
  {
    if !N.Leads(n, args.term) {
      b := a;
      StepRefl(a, i);
    } else if reply.term > n.currentTerm {
      b := SimUpdateTerm(a, i, n, tally, reply.term);
    } else {
      b := a;
      StepRefl(a, i);
      SetIndicesNode(a, i, n, tally, peer, args.lastIncludedIndex);
    }
  }
}
