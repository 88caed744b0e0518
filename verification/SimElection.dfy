/** Elections, votes and restarts of a peer are steps of the specification. */
module SimElection {
  import opened RaftTypes
  import opened RaftSpec
  import opened RaftHistory
  import opened RaftInv
  import opened Relation
  import N = RaftNode

  lemma LogShape(a: Spec, i: nat)
    requires Inv(a) && i < |a.servers|
    ensures Shape(a.servers[i].log) && |a.servers| == a.n
    ensures a.servers[i].base <= a.servers[i].commit < |a.servers[i].log|
    ensures LastTerm(a.servers[i].log) <= a.servers[i].pterm <= a.servers[i].term
  {
    assert ServerOk(a, i, a.servers[i]);
  }

  lemma StepRefl(a: Spec, i: nat)
    requires Inv(a)
    ensures StepOf(a, a, i)
  {
    ExtRefl(a);
  }

  /** A greater term noted in memory only. */
  lemma SimRaise(a: Spec, i: nat, n: Node, tally: set<nat>, term: nat) returns (b: Spec)
    requires Inv(a) && NodeOk(a, i, n, tally) && term > n.currentTerm
    ensures StepOf(a, b, i) && b == Raise(a, i, term)
    ensures NodeOk(b, i, n.(currentTerm := term, voteFor := -1, state := Follower), tally)
  {
    RaiseInv(a, i, term);
    b := Raise(a, i, term);
    RaiseNode(a, i, n, tally, term);
  }

  lemma RaiseNode(a: Spec, i: nat, n: Node, tally: set<nat>, term: nat)
    requires NodeOk(a, i, n, tally)
    ensures NodeOk(Raise(a, i, term), i,
                   n.(currentTerm := term, voteFor := -1, state := Follower), tally)
  {
  }

  lemma SimSave(a: Spec, i: nat, n: Node, tally: set<nat>) returns (b: Spec)
    requires Inv(a) && NodeOk(a, i, n, tally)
    ensures StepOf(a, b, i) && b == Save(a, i)
    ensures NodeOk(b, i, N.PersistState(n), tally)
  {
    SaveInv(a, i);
    b := Save(a, i);
    SaveNode(a, i, n, tally);
  }

  lemma SaveNode(a: Spec, i: nat, n: Node, tally: set<nat>)
    requires NodeOk(a, i, n, tally)
    ensures NodeOk(Save(a, i), i, N.PersistState(n), tally)
  {
    PutExt(a, i, Save(a, i).servers[i]);
    NodeExtSame(a, Save(a, i), i, n, N.PersistState(n), tally);
  }

  /** MatchOk and TallyOk survive when the fields they read do. */
  lemma NodeExtSame(a: Spec, b: Spec, i: nat, n: Node, m: Node, tally: set<nat>)
    requires Ext(a, b) && NodeOk(a, i, n, tally)
    requires m.state == n.state && m.currentTerm == n.currentTerm
    requires m.matchIndex == n.matchIndex && m.grantedVotes == n.grantedVotes
    ensures MatchOk(b, m) && TallyOk(b, i, m, tally)
  {
    forall p: nat | m.state == Leader && p < |m.matchIndex|
      ensures m.matchIndex[p] <= 0 || Acked(b, p, m.currentTerm, m.matchIndex[p])
    {
      assert n.matchIndex[p] <= 0 || Acked(a, p, n.currentTerm, n.matchIndex[p]);
    }
  }

  lemma SimUpdateTerm(a: Spec, i: nat, n: Node, tally: set<nat>, term: nat) returns (b: Spec)
    requires Inv(a) && NodeOk(a, i, n, tally)
    ensures StepOf(a, b, i)
    ensures NodeOk(b, i, N.UpdateTermAndStepDown(n, term), tally)
    ensures b.servers[i].log == a.servers[i].log
    ensures term <= n.currentTerm ==> b == a
  {
    if term > n.currentTerm {
      var m := SimRaise(a, i, n, tally, term);
      b := SimSave(m, i, n.(currentTerm := term, voteFor := -1, state := Follower), tally);
      StepOfTrans(a, m, b, i);
    } else {
      b := a;
      StepRefl(a, i);
    }
  }

  lemma SimStepDown(a: Spec, i: nat, n: Node, tally: set<nat>) returns (b: Spec)
    requires Inv(a) && NodeOk(a, i, n, tally)
    ensures StepOf(a, b, i) && b == StepDown(a, i)
    ensures NodeOk(b, i, n.(state := Follower), tally)
  {
    StepDownInv(a, i);
    StepDownNode(a, i, n, tally);
    b := StepDown(a, i);
  }

  lemma StepDownNode(a: Spec, i: nat, n: Node, tally: set<nat>)
    requires NodeOk(a, i, n, tally)
    ensures NodeOk(StepDown(a, i), i, n.(state := Follower), tally)
  {
  }

  // ---- Standing for election -----------------------------------------------

  lemma SimTimeout(a: Spec, i: nat, n: Node, tally: set<nat>) returns (b: Spec)
    requires Inv(a) && NodeOk(a, i, n, tally)
    ensures StepOf(a, b, i)
    ensures NodeOk(b, i, N.LaunchElection(n), {i})
    ensures |N.LaunchElection(n).logs| >= 1
    ensures VoteArgsOk(b, i, N.MakeVoteArgs(N.LaunchElection(n)))
  {
    LogShape(a, i);
    StandInv(a, i);
    StandNode(a, i, n, tally);
    b := Stand(a, i);
  }

  lemma StandNode(a: Spec, i: nat, n: Node, tally: set<nat>)
    requires NodeOk(a, i, n, tally) && Shape(a.servers[i].log) && |a.servers| == a.n
    ensures NodeOk(Stand(a, i), i, N.LaunchElection(n), {i})
    ensures |N.LaunchElection(n).logs| >= 1
    ensures VoteArgsOk(Stand(a, i), i, N.MakeVoteArgs(N.LaunchElection(n)))
  {
    StandArgs(a, i, n);
    hide Shape, VoteArgsOk;
    assert Stand(a, i).votes[(n.currentTerm + 1, i)].cand == i;
  }

  lemma StandArgs(a: Spec, i: nat, n: Node)
    requires i < |a.servers| && Core(n, a.servers[i], i, a.n) && Shape(a.servers[i].log)
    ensures |N.LaunchElection(n).logs| >= 1
    ensures VoteArgsOk(Stand(a, i), i, N.MakeVoteArgs(N.LaunchElection(n)))
  {
    NodeValid(n, a.servers[i], i, a.n);
    hide Shape, N.Valid, Suffix;
  }

  // ---- Restarting ----------------------------------------------------------

  lemma SimReboot(a: Spec, i: nat, n: Node, tally: set<nat>) returns (b: Spec)
    requires Inv(a) && NodeOk(a, i, n, tally)
    ensures StepOf(a, b, i) && |n.saved.logs| >= 1
    ensures NodeOk(b, i, N.Reboot(n), tally)
    ensures b.servers[i].base == a.servers[i].base == N.Reboot(n).lastApplied == N.Reboot(n).commitIndex
  {
    LogShape(a, i);
    RestartInv(a, i);
    RestartNode(a, i, n, tally);
    b := Restart(a, i);
  }

  lemma RestartNode(a: Spec, i: nat, n: Node, tally: set<nat>)
    requires NodeOk(a, i, n, tally) && Shape(a.servers[i].log)
    ensures |n.saved.logs| >= 1
    ensures NodeOk(Restart(a, i), i, N.Reboot(n), tally)
    ensures N.Reboot(n).lastApplied == N.Reboot(n).commitIndex == a.servers[i].base
  {
    NodeValid(n, a.servers[i], i, a.n);
  }

  lemma SimTorn(a: Spec, i: nat, n: Node, tally: set<nat>) returns (b: Spec)
    requires Inv(a) && NodeOk(a, i, n, tally)
    ensures StepOf(a, b, i) && |N.NewTerm(n).saved.logs| >= 1
    ensures NodeOk(b, i, N.Reboot(N.NewTerm(n)), tally)
    ensures b.servers[i].base == a.servers[i].base
  {
    LogShape(a, i);
    TornInv(a, i);
    TornNode(a, i, n, tally);
    b := Torn(a, i);
  }

  lemma TornNode(a: Spec, i: nat, n: Node, tally: set<nat>)
    requires NodeOk(a, i, n, tally) && Shape(a.servers[i].log)
    ensures |N.NewTerm(n).saved.logs| >= 1
    ensures NodeOk(Torn(a, i), i, N.Reboot(N.NewTerm(n)), tally)
  {
    NodeValid(n, a.servers[i], i, a.n);
  }

  // ---- Voting --------------------------------------------------------------

  lemma VoteCheckMeans(a: Spec, n: Node, r: Server, i: nat, args: VoteArgs)
    requires Core(n, r, i, a.n) && Shape(r.log) && VoteArgsOk(a, args.candidateId, args)
    ensures |n.logs| >= 1
    ensures N.LogUpToDate(n, args.lastLogIndex, args.lastLogTerm) <==>
            UpToDate(a.cands[(args.term, args.candidateId)], r.log)
  {
    NodeValid(n, r, i, a.n);
  }

  lemma SimGrant(a: Spec, i: nat, n: Node, tally: set<nat>, args: VoteArgs) returns (b: Spec)
    requires Inv(a) && NodeOk(a, i, n, tally)
    requires VoteArgsOk(a, args.candidateId, args) && args.term == n.currentTerm
    requires n.voteFor == -1 || n.voteFor == args.candidateId
    requires |n.logs| >= 1 && N.LogUpToDate(n, args.lastLogIndex, args.lastLogTerm)
    ensures StepOf(a, b, i)
    ensures NodeOk(b, i, N.PersistState(n.(voteFor := args.candidateId)), tally)
    ensures (args.term, i) in b.votes && b.votes[(args.term, i)].cand == args.candidateId
  {
    LogShape(a, i);
    VoteCheckMeans(a, n, a.servers[i], i, args);
    GrantInv(a, i, args.candidateId);
    assert ServerOk(a, i, a.servers[i]);
    GrantRecorded(a, i, args.candidateId);
    GrantNode(a, i, n, tally, args.candidateId);
    b := Grant(a, i, args.candidateId);
  }

  lemma GrantNode(a: Spec, i: nat, n: Node, tally: set<nat>, c: nat)
    requires NodeOk(a, i, n, tally) && CanGrant(a, i, c)
    ensures NodeOk(Grant(a, i, c), i, N.PersistState(n.(voteFor := c)), tally)
  {
    GrantExt(a, i, c);
    NodeExtSame(a, Grant(a, i, c), i, n, N.PersistState(n.(voteFor := c)), tally);
  }

  lemma SimRequestVote(a: Spec, i: nat, n: Node, tally: set<nat>, args: VoteArgs)
    returns (b: Spec)
    requires Inv(a) && NodeOk(a, i, n, tally) && VoteArgsOk(a, args.candidateId, args)
    ensures StepOf(a, b, i) && |n.logs| >= 1
    ensures NodeOk(b, i, N.RequestVote(n, args).0, tally)
    ensures N.RequestVote(n, args).1.granted ==>
              (args.term, i) in b.votes && b.votes[(args.term, i)].cand == args.candidateId
  {
    LogShape(a, i);
    NodeValid(n, a.servers[i], i, a.n);
    hide Inv, NodeOk, N.Valid, Shape;
    if N.RefusesOutright(n, args) {
      b := a;
      StepRefl(a, i);
    } else {
      b := SimUpdateTerm(a, i, n, tally, args.term);
      var m := N.UpdateTermAndStepDown(n, args.term);
      if N.LogUpToDate(m, args.lastLogIndex, args.lastLogTerm) {
        var c := SimGrant(b, i, m, tally, args);
        StepOfTrans(a, b, c, i);
        b := c;
      }
    }
  }

  // ---- Winning -------------------------------------------------------------

  lemma SimBecomeLeader(a: Spec, i: nat, n: Node, tally: set<nat>) returns (b: Spec)
    requires Inv(a) && NodeOk(a, i, n, tally) && n.state == Candidate
    requires N.Valid(n) && n.grantedVotes > n.peers / 2
    ensures StepOf(a, b, i)
    ensures NodeOk(b, i, N.BecomeLeader(n), tally)
  {
    LogShape(a, i);
    TallyLeads(a, i, n, tally);
    LeadInv(a, i, tally);
    LeadNode(a, i, n, tally);
    b := Lead(a, i, tally);
  }

  lemma TallyLeads(a: Spec, i: nat, n: Node, tally: set<nat>)
    requires NodeOk(a, i, n, tally) && n.state == Candidate && n.grantedVotes > n.peers / 2
    ensures CanLead(a, i, tally)
  {
  }

  lemma LeadNode(a: Spec, i: nat, n: Node, tally: set<nat>)
    requires NodeOk(a, i, n, tally) && Shape(a.servers[i].log) && N.Valid(n)
    ensures NodeOk(Lead(a, i, tally), i, N.BecomeLeader(n), tally)
  {
    NodeValid(n, a.servers[i], i, a.n);
    var l := |a.servers[i].log| - 1;
    AckExt(Crown(a, i, tally), i, n.currentTerm, l);
    var m := N.BecomeLeader(n);
    assert forall p: nat | p < |m.matchIndex| :: m.matchIndex[p] == if p == i then l else 0;
  }

  lemma CountVote(a: Spec, i: nat, n: Node, tally: set<nat>, from: nat) returns (m: Node)
    requires NodeOk(a, i, n, tally) && from !in tally && N.Valid(n)
    requires from < a.n && (n.currentTerm, from) in a.votes && a.votes[(n.currentTerm, from)].cand == i
    ensures m == n.(grantedVotes := n.grantedVotes + 1)
    ensures NodeOk(a, i, m, tally + {from}) && N.Valid(m)
  {
    m := n.(grantedVotes := n.grantedVotes + 1);
  }

  lemma SimCountVote(a: Spec, i: nat, n: Node, tally: set<nat>, from: nat) returns (b: Spec)
    requires Inv(a) && NodeOk(a, i, n, tally) && from !in tally && n.state == Candidate && N.Valid(n)
    requires from < a.n && (n.currentTerm, from) in a.votes && a.votes[(n.currentTerm, from)].cand == i
    ensures StepOf(a, b, i)
    ensures var m := n.(grantedVotes := n.grantedVotes + 1);
            NodeOk(b, i, if m.grantedVotes > n.peers / 2 then N.BecomeLeader(m) else m, tally + {from})
  {
    var m := CountVote(a, i, n, tally, from);
    if m.grantedVotes > n.peers / 2 {
      b := SimBecomeLeader(a, i, m, tally + {from});
    } else {
      b := a;
      StepRefl(a, i);
    }
  }

  lemma SimVoteReply(a: Spec, i: nat, n: Node, tally: set<nat>,
                     from: nat, args: VoteArgs, reply: VoteReply) returns (b: Spec)
    requires Inv(a) && NodeOk(a, i, n, tally) && N.Valid(n)
    requires n.state == Candidate && n.currentTerm == args.term ==> from !in tally
    requires reply.granted ==>
               from < a.n && (args.term, from) in a.votes && a.votes[(args.term, from)].cand == i
    ensures StepOf(a, b, i)
    ensures NodeOk(b, i, N.HandleVoteReply(n, args, reply),
                   if reply.granted && n.state == Candidate && n.currentTerm == args.term
                   then tally + {from} else tally)
  {
    if n.state == Candidate && n.currentTerm == args.term && reply.granted {
      b := SimCountVote(a, i, n, tally, from);
    } else if n.state == Candidate && n.currentTerm == args.term && reply.term > n.currentTerm {
      b := SimUpdateTerm(a, i, n, tally, reply.term);
    } else {
      b := a;
      StepRefl(a, i);
      assert N.HandleVoteReply(n, args, reply) == n;
    }
  }
}
