/**
 * Saved and current terms.  One branch of InstallSnapShot notes a greater term
 * without saving it; no run of a cluster ever takes it, so terms never fall.
 */
module TermSafety {
  import opened Payload
  import opened RaftTypes
  import opened RaftSpec
  import opened RaftHistory
  import opened Relation
  import opened Delivery
  import opened Refinement
  import opened Safety
  import Selection
  import N = RaftNode
  import C = Cluster

  // ---- One handler ---------------------------------------------------------

  /** What is in memory is what a restart would read back. */
  predicate OnDisk(n: Node) {
    n.saved.term == n.currentTerm && n.saved.vote == n.voteFor
  }

  /** An old snapshot from a leader of a greater term. */
  predicate StaleSnapshot(n: Node, st: C.Step) {
    && st.DeliverSnapReq? && st.m.SnapReq?
    && st.m.sargs.term > n.currentTerm && st.m.sargs.lastIncludedIndex <= n.lastApplied
  }

  /** Exactly one guard leaves the term unsaved. */
  lemma UnsavedIff(p: Peer, st: C.Step)
    requires C.Safe(p, st) && C.Ready(p, st) && OnDisk(p.node)
    ensures var n := C.Act(p, st).0.node;
            && (n.saved.term < n.currentTerm <==> StaleSnapshot(p.node, st))
            && (OnDisk(n) <==> !StaleSnapshot(p.node, st))
  {
    hide N.InstalledLog, Selection.KthSmallest, N.Mismatch, N.RollBackIndex;
    if st.DeliverAppReq? { AppendSaves(p.node, st.m.aargs); }
  }

  lemma AppendSaves(n: Node, args: AppendArgs)
    requires N.Valid(n) && N.Numbered(args) && OnDisk(n)
    ensures OnDisk(N.AppendEntry(n, args).0)
  {
    hide N.Mismatch;
  }

  /** A restart lowers the term exactly when it was not saved. */
  lemma RebootLowersIff(p: Peer, i: nat)
    requires C.Safe(p, C.Reboot(i))
    ensures C.Act(p, C.Reboot(i)).0.node.currentTerm < p.node.currentTerm <==>
            p.node.saved.term < p.node.currentTerm
  {
  }

  /** A peer on which both happen: term 3 noted, term 1 after a restart. */
  lemma TermLost() returns (p: Peer, st: C.Step)
    ensures C.Safe(p, st) && C.Ready(p, st) && OnDisk(p.node) && StaleSnapshot(p.node, st)
    ensures var q := C.Act(p, st).0;
            && q.node.currentTerm == 3 && C.Safe(q, C.Reboot(0)) && C.Ready(q, C.Reboot(0))
            && C.Act(q, C.Reboot(0)).0.node.currentTerm == 1
  {
    var n := N.Make(0, 1, Saved(1, -1, [LogEntry(Nil, 1, 5)], 5, 1, None));
    p := C.Peer(n, {}, C.Chan(5, [], 0), C.Rsm.Booting);
    st := C.DeliverSnapReq(0, C.SnapReq(0, 0, SnapArgs(3, 0, 4, 1, None)));
  }

  // ---- What a leader's next indices say ------------------------------------

  /** From the peer's next index on the leader has only entries of its own term. */
  predicate OwnFrom(n: Node, peer: nat)
    requires peer < |n.nextIndex|
  {
    forall i | 0 <= i < |n.logs| && n.logs[i].index >= n.nextIndex[peer] :: n.logs[i].term == n.currentTerm
  }

  /** A peer looked for earlier than that has answered, so it saved the term. */
  ghost predicate LeaderTidy(ps: seq<Peer>, n: Node) {
    n.state == Leader ==>
      forall x: nat | x < |ps| && x != n.me && x < |n.nextIndex| ::
        OwnFrom(n, x) || ps[x].node.saved.term >= n.currentTerm
  }

  /** Answers come from peers that saved the term; so do snapshots of older entries go. */
  ghost predicate Traced(ps: seq<Peer>, m: C.Message) {
    && m.from < |ps| && m.to < |ps|
    && match m
       case SnapReq(_, to, args) => args.lastIncludedTerm == args.term || ps[to].node.saved.term >= args.term
       case AppRep(from, _, args, reply) =>
         reply.success || reply.term <= args.term ==> ps[from].node.saved.term >= args.term
       case SnapRep(from, _, args, reply) => reply.term <= args.term ==> ps[from].node.saved.term >= args.term
       case _ => true
  }

  ghost predicate Tidy(c: C.State) {
    && (forall x | 0 <= x < |c.peers| :: OnDisk(c.peers[x].node) && LeaderTidy(c.peers, c.peers[x].node))
    && (forall m | m in c.msgs :: Traced(c.peers, m))
  }

  // ---- The branch is not taken ---------------------------------------------

  /** A snapshot that ends with an entry of a greater term is above all that was applied. */
  lemma NotStale(a: Spec, i: nat, p: Peer, args: SnapArgs)
    requires Inv(a) && PeerOk(a, i, p) && SnapArgsOk(a, args)
    requires args.lastIncludedTerm == args.term > p.node.currentTerm
    ensures args.lastIncludedIndex > p.node.lastApplied
  {
    hide RaftSpec.Inv, StreamOk, ServiceOk, SavedOk, MatchOk, TallyOk, Settled;
    var r, m := a.servers[i], args.lastIncludedIndex;
    if m <= p.node.lastApplied {
      CommitSettled(a, i, m);
      var l := a.terms[args.term].log;
      AgreedSettles(a, l[..m + 1], args.term);
      SettledUnique(a, r.log[..m + 1], l[..m + 1]);
      assert r.log[..m + 1][m] == l[..m + 1][m];
      InvServer(a, i);
    }
  }

  lemma AgreedSettles(a: Spec, l: Log, t: nat)
    requires Agreed(a, l, t)
    ensures Settled(a, l)
  {
  }

  // ---- One peer's part of a step -------------------------------------------

  /** Leading on with the same indices and no new entries of another term. */
  predicate LeadsOn(n: Node, m: Node) {
    m.me == n.me &&
    (m.state == Leader ==>
      && n.state == Leader && m.currentTerm == n.currentTerm && |m.nextIndex| == |n.nextIndex|
      && forall i | 0 <= i < |m.logs| :: m.logs[i].term == m.currentTerm || From(n.logs, m.logs[i]))
  }

  /** The log has an entry of this index and term. */
  predicate From(logs: Log, e: LogEntry) {
    exists j :: 0 <= j < |logs| && logs[j].index == e.index && logs[j].term == e.term
  }

  lemma LeadsOnTidy(ps: seq<Peer>, n: Node, m: Node)
    requires LeaderTidy(ps, n) && LeadsOn(n, m)
    requires m.state == Leader ==>
               forall x: nat | x < |ps| && x != n.me && x < |n.nextIndex| ::
                 m.nextIndex[x] == n.nextIndex[x] || ps[x].node.saved.term >= n.currentTerm
    ensures LeaderTidy(ps, m)
  {
    forall x: nat | m.state == Leader && x < |ps| && x != n.me && x < |m.nextIndex|
      ensures OwnFrom(m, x) || ps[x].node.saved.term >= m.currentTerm
    {
      if OwnFrom(n, x) && m.nextIndex[x] == n.nextIndex[x] {
        forall i | 0 <= i < |m.logs| && m.logs[i].index >= m.nextIndex[x] ensures m.logs[i].term == m.currentTerm {
          if From(n.logs, m.logs[i]) {
            var j :| 0 <= j < |n.logs| && n.logs[j].index == m.logs[i].index && n.logs[j].term == m.logs[i].term;
          }
        }
      }
    }
  }

  /** The same log will do. */
  lemma SameLog(n: Node, m: Node)
    requires m.me == n.me && m.logs == n.logs && |m.nextIndex| == |n.nextIndex|
    requires m.state == Leader ==> n.state == Leader && m.currentTerm == n.currentTerm
    ensures LeadsOn(n, m)
  {
    forall i | 0 <= i < |m.logs| ensures From(n.logs, m.logs[i]) {
      assert n.logs[i] == m.logs[i];
    }
  }

  lemma VoteReqTidy(ps: seq<Peer>, n: Node, args: VoteArgs)
    requires LeaderTidy(ps, n) && N.Valid(n)
    ensures LeaderTidy(ps, N.RequestVote(n, args).0)
  {
    var m := N.RequestVote(n, args).0;
    SameLog(n, m);
    LeadsOnTidy(ps, n, m);
  }

  /** A new leader looks for everyone right after its own last entry. */
  lemma VoteRepTidy(ps: seq<Peer>, n: Node, args: VoteArgs, reply: VoteReply)
    requires LeaderTidy(ps, n) && N.Valid(n)
    ensures LeaderTidy(ps, N.HandleVoteReply(n, args, reply))
  {
    var m := N.HandleVoteReply(n, args, reply);
    if n.state != Candidate {
      SameLog(n, m);
      LeadsOnTidy(ps, n, m);
    }
  }

  lemma AppRepTidy(ps: seq<Peer>, n: Node, from: nat, args: AppendArgs, reply: AppendReply)
    requires LeaderTidy(ps, n) && N.Valid(n) && from < n.peers == |ps|
    requires N.Leads(n, args.term) ==> args.prevLogIndex <= N.Last(n).index
    requires reply.success || reply.term <= args.term ==> ps[from].node.saved.term >= args.term
    ensures LeaderTidy(ps, N.HandleAppendReply(n, from, args, reply))
  {
    hide Selection.KthSmallest, N.RollBackIndex, LeaderTidy;
    var m := N.HandleAppendReply(n, from, args, reply);
    SameLog(n, m);
    hide LeadsOn;
    LeadsOnTidy(ps, n, m);
  }

  lemma SnapRepTidy(ps: seq<Peer>, n: Node, from: nat, args: SnapArgs, reply: SnapReply)
    requires LeaderTidy(ps, n) && N.Valid(n) && from < n.peers == |ps|
    requires reply.term <= args.term ==> ps[from].node.saved.term >= args.term
    ensures LeaderTidy(ps, N.HandleSnapReply(n, from, args, reply))
  {
    hide LeaderTidy;
    var m := N.HandleSnapReply(n, from, args, reply);
    SameLog(n, m);
    hide LeadsOn;
    LeadsOnTidy(ps, n, m);
  }

  lemma StartTidy(ps: seq<Peer>, n: Node, command: Command)
    requires LeaderTidy(ps, n) && N.Valid(n)
    ensures LeaderTidy(ps, N.Start(n, command).0)
  {
    var m := N.Start(n, command).0;
    forall i | 0 <= i < |m.logs| && m.logs[i].term != m.currentTerm ensures From(n.logs, m.logs[i]) {
      assert m.logs[i] == n.logs[i];
    }
    LeadsOnTidy(ps, n, m);
  }

  lemma SnapshotTidy(ps: seq<Peer>, n: Node, index: nat, image: Image)
    requires LeaderTidy(ps, n) && N.Valid(n)
    ensures LeaderTidy(ps, N.Snapshot(n, index, image))
  {
    var m := N.Snapshot(n, index, image);
    var b := |n.logs| - |m.logs|;
    forall i | 0 <= i < |m.logs| ensures From(n.logs, m.logs[i]) {
      assert n.logs[b + i].index == m.logs[i].index && n.logs[b + i].term == m.logs[i].term;
    }
    LeadsOnTidy(ps, n, m);
  }

  lemma TakeTidy(ps: seq<Peer>, n: Node)
    requires LeaderTidy(ps, n) && N.Valid(n)
    ensures LeaderTidy(ps, N.Take(n).0)
  {
    SameLog(n, N.Take(n).0);
    LeadsOnTidy(ps, n, N.Take(n).0);
  }

  /** Everyone who handles AppendEntry or InstallSnapShot follows, or ignores it. */
  lemma FollowTidy(ps: seq<Peer>, n: Node, args: AppendArgs)
    requires LeaderTidy(ps, n) && N.Valid(n) && N.Numbered(args)
    ensures LeaderTidy(ps, N.AppendEntry(n, args).0)
    ensures var (m, reply) := N.AppendEntry(n, args);
            && m.me == n.me && m.currentTerm >= n.currentTerm
            && (reply.success || reply.term <= args.term ==> m.currentTerm >= args.term)
  {
    hide N.Mismatch, LeaderTidy;
    var m := N.AppendEntry(n, args).0;
    if args.term >= n.currentTerm { FollowersTidy(ps, m); }
  }

  lemma FollowersTidy(ps: seq<Peer>, n: Node)
    requires n.state != Leader
    ensures LeaderTidy(ps, n)
  {
  }

  lemma InstallTidy(ps: seq<Peer>, n: Node, args: SnapArgs)
    requires LeaderTidy(ps, n) && N.Valid(n)
    ensures LeaderTidy(ps, N.InstallSnapShot(n, args).0)
    ensures var (m, reply) := N.InstallSnapShot(n, args);
            && m.me == n.me && m.currentTerm >= n.currentTerm
            && (reply.term <= args.term ==> m.currentTerm >= args.term)
  {
    hide N.InstalledLog, LeaderTidy;
    var m := N.InstallSnapShot(n, args).0;
    if args.term >= n.currentTerm { FollowersTidy(ps, m); }
  }

  /** Whatever the step, the peer's term does not fall and it leads as a leader should. */
  lemma ActTidy(ps: seq<Peer>, p: Peer, st: C.Step)
    requires C.Safe(p, st) && C.Ready(p, st) && OnDisk(p.node) && LeaderTidy(ps, p.node)
    requires p.node.peers == |ps| && (C.Delivers(st) ==> Traced(ps, st.m))
    ensures var q := C.Act(p, st).0;
            q.node.me == p.node.me && q.node.currentTerm >= p.node.currentTerm && LeaderTidy(ps, q.node)
  {
    hide LeaderTidy, N.RequestVote, N.HandleVoteReply, N.HandleAppendReply, N.HandleSnapReply, N.Start,
         N.Snapshot, N.Take, N.AppendEntry, N.InstallSnapShot;
    var n := p.node;
    if !st.DeliverAppReq? && !st.DeliverSnapReq? { TermsRise(p, st); }
    match st
    case DeliverVoteReq(_, m) => VoteReqTidy(ps, n, m.vargs);
    case DeliverVoteRep(_, m) => VoteRepTidy(ps, n, m.vargs, m.vreply);
    case DeliverAppReq(_, m) => FollowTidy(ps, n, m.aargs);
    case DeliverAppRep(_, m) => AppRepTidy(ps, n, m.from, m.aargs, m.areply);
    case DeliverSnapReq(_, m) => InstallTidy(ps, n, m.sargs);
    case DeliverSnapRep(_, m) => SnapRepTidy(ps, n, m.from, m.sargs, m.sreply);
    case Start(_, op) => StartTidy(ps, n, Cmd(op));
    case TakeMsg(_) => TakeTidy(ps, n);
    case TakeSnapshot(_) => SnapshotTidy(ps, n, p.service.lastApplied, C.Rsm.CreateSnapshot(p.service));
    case Send(_, _) =>
    case ReceiveMsg(_) =>
    case RestoreService(_) =>
    case _ => FollowersTidy(ps, C.Act(p, st).0.node);
  }

  lemma TermsRise(p: Peer, st: C.Step)
    requires C.Safe(p, st) && C.Ready(p, st) && OnDisk(p.node)
    requires !st.DeliverAppReq? && !st.DeliverSnapReq?
    ensures var q := C.Act(p, st).0; q.node.me == p.node.me && q.node.currentTerm >= p.node.currentTerm
  {
    hide Selection.KthSmallest, N.RollBackIndex;
  }

  // ---- A step of the cluster -----------------------------------------------

  lemma SentTidy(ps: seq<Peer>, i: nat, p: Peer, st: C.Step)
    requires C.Safe(p, st) && C.Ready(p, st) && OnDisk(p.node) && LeaderTidy(ps, p.node)
    requires i < |ps| == p.node.peers && st.i == i == p.node.me && (C.Delivers(st) ==> Traced(ps, st.m))
    requires !StaleSnapshot(p.node, st)
    ensures var (q, sent) := C.Act(p, st); forall m | m in sent :: Traced(ps[i := q], m)
  {
    UnsavedIff(p, st);
    match st
    case DeliverAppReq(_, m) =>
      FollowTidy(ps, p.node, m.aargs);
      hide N.AppendEntry, LeaderTidy;
    case DeliverSnapReq(_, m) =>
      InstallTidy(ps, p.node, m.sargs);
      hide N.InstallSnapShot, LeaderTidy;
    case DeliverVoteReq(_, m) =>
      hide N.RequestVote, LeaderTidy;
    case Send(_, peer) =>
      SendTraced(ps, p.node, peer);
    case _ =>
      hide LeaderTidy, Selection.KthSmallest, N.RollBackIndex, N.Advance;
  }

  /** A snapshot goes out for a compacted entry at or above the next index. */
  lemma SendTraced(ps: seq<Peer>, n: Node, peer: nat)
    requires N.Valid(n) && LeaderTidy(ps, n) && n.state == Leader && peer != n.me
    requires peer < n.peers == |ps|
    ensures Traced(ps, C.SendTo(n, peer))
  {
  }

  lemma TracedLater(ps: seq<Peer>, i: nat, q: Peer, m: C.Message)
    requires i < |ps| && Traced(ps, m) && q.node.saved.term >= ps[i].node.saved.term
    ensures Traced(ps[i := q], m)
  {
  }

  lemma TidyLater(ps: seq<Peer>, i: nat, q: Peer, n: Node)
    requires i < |ps| && LeaderTidy(ps, n) && q.node.saved.term >= ps[i].node.saved.term
    ensures LeaderTidy(ps[i := q], n)
  {
    hide OwnFrom;
  }

  lemma PeerTraits(a: Spec, c: C.State, i: nat)
    requires ClusterInv(a, c) && i < |c.peers|
    ensures Inv(a) && PeerOk(a, i, c.peers[i]) && N.Valid(c.peers[i].node)
    ensures c.peers[i].node.peers == |c.peers| && c.peers[i].node.me == i
  {
    hide RaftSpec.Inv, PeerOk, MessageOk, N.Valid;
    PeerValid(a, i, c.peers[i]);
  }

  /** No message to a peer whose term is lower can be an old snapshot. */
  lemma NeverStale(a: Spec, c: C.State, st: C.Step)
    requires ClusterInv(a, c) && Tidy(c) && C.Enabled(c, st)
    ensures !StaleSnapshot(c.peers[st.i].node, st)
  {
    hide RaftSpec.Inv, PeerOk, LeaderTidy, C.Ready;
    PeerTraits(a, c, st.i);
    var p := c.peers[st.i];
    if st.DeliverSnapReq? && st.m.SnapReq? && st.m.sargs.term > p.node.currentTerm {
      assert Traced(c.peers, st.m) && MessageOk(a, st.m);
      NotStale(a, st.i, p, st.m.sargs);
    }
  }

  predicate Rises(c: C.State, c': C.State) {
    |c'.peers| == |c.peers| &&
    forall x | 0 <= x < |c.peers| :: c.peers[x].node.currentTerm <= c'.peers[x].node.currentTerm
  }

  lemma DiskGrows(n: Node, m: Node)
    requires OnDisk(n) && OnDisk(m) && n.currentTerm <= m.currentTerm
    ensures n.saved.term <= m.saved.term
  {
  }

  lemma TidyStep(a: Spec, c: C.State, st: C.Step, c': C.State)
    requires ClusterInv(a, c) && Tidy(c) && C.Steps(c, st, c')
    ensures Tidy(c')
    ensures Rises(c, c')
  {
    hide ClusterInv, RaftSpec.Inv, PeerOk, LeaderTidy, Traced, C.Act, C.Safe, C.Ready, StaleSnapshot, N.Valid, OnDisk;
    PeerTraits(a, c, st.i);
    NeverStale(a, c, st);
    var ps, i, p := c.peers, st.i, c.peers[st.i];
    var (q, sent) := C.Act(p, st);
    UnsavedIff(p, st);
    ActTidy(ps, p, st);
    SentTidy(ps, i, p, st);
    DiskGrows(p.node, q.node);
    forall x | 0 <= x < |ps| ensures OnDisk(c'.peers[x].node) && LeaderTidy(c'.peers, c'.peers[x].node) {
      TidyLater(ps, i, q, c'.peers[x].node);
    }
    forall m | m in c.msgs ensures Traced(c'.peers, m) { TracedLater(ps, i, q, m); }
  }

  lemma TidyStart(c: C.State)
    requires C.Init(c)
    ensures Tidy(c)
  {
  }

  lemma {:induction false} RunTidy(specs: seq<Spec>, cs: seq<C.State>, k: nat)
    requires C.IsRun(cs) && Tracks(specs, cs) && k < |cs|
    ensures Tidy(cs[k])
  {
    hide ClusterInv, Ext, C.Steps, Tidy;
    if k == 0 {
      TidyStart(cs[0]);
    } else {
      RunTidy(specs, cs, k - 1);
      StepUp(specs, cs, k - 1);
    }
  }

  lemma StepUp(specs: seq<Spec>, cs: seq<C.State>, k: nat)
    requires C.IsRun(cs) && Tracks(specs, cs) && k + 1 < |cs| && Tidy(cs[k])
    ensures Tidy(cs[k + 1]) && Rises(cs[k], cs[k + 1])
  {
    hide ClusterInv, Ext, C.Steps, Tidy;
    assert C.Next(cs[k], cs[k + 1]);
    var st :| C.Steps(cs[k], st, cs[k + 1]);
    TidyStep(specs[k], cs[k], st, cs[k + 1]);
  }

  // ---- Every run -----------------------------------------------------------

  /** At every moment of every run, a restart would read back the term and vote in memory. */
  lemma NothingUnsaved(cs: seq<C.State>, k: nat, x: nat)
    requires C.IsRun(cs) && At(cs, k, x)
    ensures OnDisk(NodeOf(cs, k, x))
  {
    hide ClusterInv, Ext, C.IsRun, LeaderTidy, Traced;
    var specs := RunRefines(cs);
    RunTidy(specs, cs, k);
  }

  /** The unsaved branch is never taken in a run. */
  lemma StaleUnreachable(cs: seq<C.State>, k: nat, st: C.Step)
    requires C.IsRun(cs) && k < |cs| && C.Enabled(cs[k], st)
    ensures !StaleSnapshot(cs[k].peers[st.i].node, st)
  {
    hide ClusterInv, Ext, C.IsRun, Tidy, StaleSnapshot;
    var specs := RunRefines(cs);
    RunTidy(specs, cs, k);
    NeverStale(specs[k], cs[k], st);
  }

  /** A server's term never falls, across crashes and restarts. */
  lemma {:induction false} TermsNeverFall(cs: seq<C.State>, j: nat, k: nat, x: nat)
    requires C.IsRun(cs) && At(cs, j, x) && j <= k < |cs|
    ensures At(cs, k, x) && NodeOf(cs, j, x).currentTerm <= NodeOf(cs, k, x).currentTerm
    decreases k
  {
    hide ClusterInv, Ext, C.Steps, Tidy, C.Init, C.Next;
    if j < k {
      TermsNeverFall(cs, j, k - 1, x);
      var specs := RunRefines(cs);
      RunTidy(specs, cs, k - 1);
      StepUp(specs, cs, k - 1);
      assert NodeOf(cs, k - 1, x) == cs[k - 1].peers[x].node;
    }
  }
}
