/** The cluster of compacting peers follows the specification, step by step. */
module Refinement {
  import opened Payload
  import opened RaftTypes
  import opened RaftSpec
  import opened RaftHistory
  import opened Relation
  import opened SimElection
  import opened SimLeader
  import opened SimFollower
  import opened Delivery
  import N = RaftNode
  import KvMachine
  import Rsm
  import Selection
  import C = Cluster

  type Peer = C.Peer

  // ---- The invariant -------------------------------------------------------

  ghost predicate PeerOk(a: Spec, i: nat, p: Peer) {
    && NodeOk(a, i, p.node, p.tally)
    && StreamOk(a, p.node, p.chan)
    && ServiceOk(a, p.node, p.chan, p.service)
    && SavedOk(a, p.node)
  }

  ghost predicate MessageOk(a: Spec, m: C.Message) {
    && m.from < a.n && m.to < a.n
    && match m
       case VoteReq(from, to, args) => VoteArgsOk(a, from, args)
       case VoteRep(from, to, args, reply) =>
         reply.granted ==> (args.term, from) in a.votes && a.votes[(args.term, from)].cand == to
       case AppReq(from, to, args) => AppendArgsOk(a, args)
       case AppRep(from, to, args, reply) =>
         && AppendArgsOk(a, args)
         && (reply.success ==> Acked(a, from, args.term, args.prevLogIndex + |args.entries|))
       case SnapReq(from, to, args) =>
         && SnapArgsOk(a, args)
         && (args.lastIncludedIndex >= 1 ==> ImageAt(a, args.image, args.lastIncludedIndex))
       case SnapRep(from, to, args, reply) =>
         reply.term <= args.term ==> Acked(a, from, args.term, args.lastIncludedIndex)
  }

  ghost predicate ClusterInv(a: Spec, c: C.State) {
    && Inv(a) && |c.peers| == a.n
    && (forall i | 0 <= i < |c.peers| :: PeerOk(a, i, c.peers[i]))
    && (forall m | m in c.msgs :: MessageOk(a, m))
  }

  // ---- What others see of a step -------------------------------------------

  lemma MessageExt(a: Spec, b: Spec, m: C.Message)
    requires Ext(a, b) && MessageOk(a, m)
    ensures MessageOk(b, m)
  {
    hide AppendArgsOk, SnapArgsOk, StateAt, Acked;
    match m
    case VoteReq(_, _, _) =>
    case VoteRep(_, _, _, _) =>
    case AppReq(_, _, args) => AppendArgsExt(a, b, args);
    case AppRep(from, _, args, reply) =>
      AppendArgsExt(a, b, args);
      if reply.success { AckedStays(a, b, from, args.term, args.prevLogIndex + |args.entries|); }
    case SnapReq(_, _, args) =>
      SnapArgsExt(a, b, args);
      if args.lastIncludedIndex >= 1 {
        StateAtExt(a, b, KvMachine.Restore(args.image.value.sm), args.lastIncludedIndex);
      }
    case SnapRep(from, _, args, reply) =>
      if reply.term <= args.term { AckedStays(a, b, from, args.term, args.lastIncludedIndex); }
  }

  lemma PeerExt(a: Spec, b: Spec, i: nat, p: Peer)
    requires Ext(a, b) && PeerOk(a, i, p) && b.servers[i] == a.servers[i]
    ensures PeerOk(b, i, p)
  {
    PeerBasics(a, i, p);
    hide NodeOk, StreamOk, ServiceOk, SavedOk;
    NodeExt(a, b, i, p.node, p.tally);
    StreamExt(a, b, p.node, p.node, p.chan);
    ServiceExt(a, b, p.node, p.node, p.chan, p.service);
    SavedExt(a, b, p.node, p.node);
  }

  lemma PeerBasics(a: Spec, i: nat, p: Peer)
    requires PeerOk(a, i, p)
    ensures i < |a.servers| && |p.node.logs| >= 1 && NodeOk(a, i, p.node, p.tally)
  {
  }

  lemma Rebuild(a: Spec, b: Spec, c: C.State, i: nat, p: Peer, ms: set<C.Message>)
    requires ClusterInv(a, c) && StepOf(a, b, i) && i < |c.peers|
    requires PeerOk(b, i, p) && forall m | m in ms :: MessageOk(b, m)
    ensures ClusterInv(b, C.State(c.peers[i := p], c.msgs + ms))
  {
    hide Inv, PeerOk, MessageOk;
    forall k | 0 <= k < |c.peers| && k != i ensures PeerOk(b, k, c.peers[k]) {
      PeerBasics(a, k, c.peers[k]);
      PeerExt(a, b, k, c.peers[k]);
    }
    forall m | m in c.msgs ensures MessageOk(b, m) {
      MessageExt(a, b, m);
    }
  }

  // ---- Steps that leave the service alone ----------------------------------

  /** Nothing the channel, the service or the saved snapshot depends on changed. */
  predicate Quiet(n: Node, m: Node) {
    && m.lastApplied == n.lastApplied && m.pendingSnapshot == n.pendingSnapshot
    && m.saved.image == n.saved.image
    && |m.logs| >= 1 && |n.logs| >= 1 && m.logs[0].index == n.logs[0].index
  }

  lemma QuietPeer(a: Spec, b: Spec, i: nat, p: Peer, m: Node, tally: set<nat>)
    requires PeerOk(a, i, p) && Ext(a, b) && Quiet(p.node, m) && NodeOk(b, i, m, tally)
    ensures PeerOk(b, i, p.(node := m, tally := tally))
  {
    hide NodeOk, StreamOk, ServiceOk, SavedOk;
    StreamExt(a, b, p.node, m, p.chan);
    ServiceExt(a, b, p.node, m, p.chan, p.service);
    SavedExt(a, b, p.node, m);
  }

  lemma QuietAppend(n: Node, args: AppendArgs)
    requires N.Valid(n) && N.Numbered(args)
    ensures Quiet(n, N.AppendEntry(n, args).0)
  {
    var m := N.UpdateTermAndStepDown(n, args.term).(state := Follower);
    if args.term >= n.currentTerm && N.LogMatched(m, args.prevLogIndex, args.prevLogTerm) {
      QuietStore(m, args);
    }
  }

  lemma QuietStore(n: Node, args: AppendArgs)
    requires N.Valid(n) && N.Numbered(args)
    requires N.First(n).index <= args.prevLogIndex <= N.Last(n).index
    ensures Quiet(n, N.StoreEntries(n, args)) && N.Valid(N.StoreEntries(n, args))
  {
    N.StoreValid(n, args);
    if args.entries != [] { N.FirstNewFits(n.logs, N.First(n).index, args.entries, 0); }
  }

  lemma PeerValid(a: Spec, i: nat, p: Peer)
    requires Inv(a) && PeerOk(a, i, p)
    ensures N.Valid(p.node) && |p.node.saved.logs| >= 1 && p.node.peers == a.n && i < a.n == |a.servers|
    ensures p.node.me == i && p.node.saved.logs == p.node.logs
  {
    LogShape(a, i);
    NodeValid(p.node, a.servers[i], i, a.n);
  }

  // ---- One lemma per step --------------------------------------------------

  lemma StepTimeout(a: Spec, i: nat, p: Peer) returns (b: Spec, q: Peer)
    requires Inv(a) && PeerOk(a, i, p) && N.Valid(p.node) && i < a.n
    ensures q == p.(node := N.LaunchElection(p.node), tally := {i})
    ensures StepOf(a, b, i) && PeerOk(b, i, q)
    ensures forall m | m in C.VoteRequests(q.node) :: MessageOk(b, m)
  {
    hide Inv;
    b := SimTimeout(a, i, p.node, p.tally);
    q := p.(node := N.LaunchElection(p.node), tally := {i});
    QuietPeer(a, b, i, p, q.node, {i});
  }

  lemma StepVoteReq(a: Spec, i: nat, p: Peer, m: C.Message) returns (b: Spec, q: Peer, reply: VoteReply)
    requires Inv(a) && PeerOk(a, i, p) && N.Valid(p.node) && m.VoteReq? && MessageOk(a, m) && i < a.n
    ensures (q.node, reply) == N.RequestVote(p.node, m.vargs) && q == p.(node := q.node)
    ensures StepOf(a, b, i) && PeerOk(b, i, q)
    ensures MessageOk(b, C.VoteRep(i, m.from, m.vargs, reply))
  {
    hide Inv, NodeOk;
    PeerBasics(a, i, p);
    b := SimRequestVote(a, i, p.node, p.tally, m.vargs);
    q, reply := p.(node := N.RequestVote(p.node, m.vargs).0), N.RequestVote(p.node, m.vargs).1;
    QuietVote(p.node, m.vargs);
    hide N.RequestVote, Quiet, N.Valid, PeerOk;
    QuietPeer(a, b, i, p, q.node, p.tally);
  }

  lemma QuietVote(n: Node, args: VoteArgs)
    requires |n.logs| >= 1
    ensures Quiet(n, N.RequestVote(n, args).0)
  {
  }

  lemma StepVoteRep(a: Spec, i: nat, p: Peer, m: C.Message) returns (b: Spec, q: Peer)
    requires Inv(a) && PeerOk(a, i, p) && N.Valid(p.node) && m.VoteRep? && MessageOk(a, m) && m.to == i
    requires p.node.state == Candidate && p.node.currentTerm == m.vargs.term ==> m.from !in p.tally
    ensures q == p.(node := N.HandleVoteReply(p.node, m.vargs, m.vreply),
                    tally := if m.vreply.granted && p.node.state == Candidate &&
                                p.node.currentTerm == m.vargs.term
                             then p.tally + {m.from} else p.tally)
    ensures StepOf(a, b, i) && PeerOk(b, i, q)
  {
    hide Inv, NodeOk;
    b := SimVoteReply(a, i, p.node, p.tally, m.from, m.vargs, m.vreply);
    q := p.(node := N.HandleVoteReply(p.node, m.vargs, m.vreply),
            tally := if m.vreply.granted && p.node.state == Candidate &&
                        p.node.currentTerm == m.vargs.term
                     then p.tally + {m.from} else p.tally);
    QuietPeer(a, b, i, p, q.node, q.tally);
  }

  lemma StepSend(a: Spec, i: nat, p: Peer, peer: nat)
    requires Inv(a) && PeerOk(a, i, p) && N.Valid(p.node) && i < a.n == p.node.peers
    requires p.node.state == Leader && peer < p.node.peers && p.node.me == i
    ensures MessageOk(a, C.SendTo(p.node, peer))
  {
    hide Inv, ServerOk, NodeOk, AppendArgsOk, SnapArgsOk, N.GenAppendEntryArgs, StreamOk, ServiceOk, StateAt;
    PeerBasics(a, i, p);
    InvServer(a, i);
    if N.Behind(p.node, peer) {
      SentSnapshot(a, i, p.node, p.tally);
    } else {
      SentAppend(a, i, p.node, p.tally, p.node.nextIndex[peer] - 1);
    }
  }

  lemma StepAppReq(a: Spec, i: nat, p: Peer, m: C.Message) returns (b: Spec, q: Peer, reply: AppendReply)
    requires Inv(a) && PeerOk(a, i, p) && N.Valid(p.node) && m.AppReq? && MessageOk(a, m) && i < a.n
    ensures N.Numbered(m.aargs)
    ensures (q.node, reply) == N.AppendEntry(p.node, m.aargs) && q == p.(node := q.node)
    ensures StepOf(a, b, i) && PeerOk(b, i, q)
    ensures MessageOk(b, C.AppRep(i, m.from, m.aargs, reply))
  {
    hide Inv, NodeOk, AppendArgsOk, N.AppendEntry;
    var n';
    b, n', reply := SimAppendEntry(a, i, p.node, p.tally, m.aargs);
    q := p.(node := n');
    QuietAppend(p.node, m.aargs);
    QuietPeer(a, b, i, p, q.node, p.tally);
    AppendArgsExt(a, b, m.aargs);
  }

  lemma StepAppRep(a: Spec, i: nat, p: Peer, m: C.Message) returns (b: Spec, q: Peer)
    requires Inv(a) && PeerOk(a, i, p) && N.Valid(p.node) && m.AppRep? && MessageOk(a, m)
    requires a.n == p.node.peers && i < |a.servers| == a.n
    ensures N.Leads(p.node, m.aargs.term) ==> m.aargs.prevLogIndex <= N.Last(p.node).index
    ensures q == p.(node := N.HandleAppendReply(p.node, m.from, m.aargs, m.areply))
    ensures StepOf(a, b, i) && PeerOk(b, i, q)
  {
    hide Inv, NodeOk, ServerOk, AppendArgsOk;
    InvServer(a, i);
    OwnRequest(a, i, p.node, p.tally, m.aargs);
    PrevNonNegative(a, m.aargs);
    var n';
    b, n' := SimAppendReply(a, i, p.node, p.tally, m.from, m.aargs, m.areply);
    q := p.(node := n');
    QuietAppendReply(p.node, m.from, m.aargs, m.areply);
    hide Acked, N.HandleAppendReply, Quiet;
    QuietPeer(a, b, i, p, q.node, p.tally);
  }

  lemma QuietAppendReply(n: Node, peer: nat, args: AppendArgs, reply: AppendReply)
    requires N.Valid(n) && peer < n.peers
    requires N.Leads(n, args.term) ==> args.prevLogIndex <= N.Last(n).index
    ensures Quiet(n, N.HandleAppendReply(n, peer, args, reply))
  {
    hide Selection.KthSmallest, N.RollBackIndex;
  }

  lemma PrevNonNegative(a: Spec, args: AppendArgs)
    requires AppendArgsOk(a, args)
    ensures args.prevLogIndex >= 0
  {
  }

  lemma StepSnapReq(a: Spec, i: nat, p: Peer, m: C.Message) returns (b: Spec, q: Peer, reply: SnapReply)
    requires Inv(a) && PeerOk(a, i, p) && N.Valid(p.node) && m.SnapReq? && MessageOk(a, m) && i < a.n
    ensures (q.node, reply) == N.InstallSnapShot(p.node, m.sargs) && q == p.(node := q.node)
    ensures StepOf(a, b, i) && PeerOk(b, i, q)
    ensures MessageOk(b, C.SnapRep(i, m.from, m.sargs, reply))
  {
    hide Inv, NodeOk, SnapArgsOk, StateAt;
    var n';
    b, n', reply := SimInstall(a, i, p.node, p.tally, m.sargs);
    q := p.(node := n');
    InstallPeer(a, b, i, p, m.sargs);
  }

  /** A newer snapshot is staged above everything sent so far. */
  lemma InstallPeer(a: Spec, b: Spec, i: nat, p: Peer, args: SnapArgs)
    requires PeerOk(a, i, p) && N.Valid(p.node) && Ext(a, b)
    requires args.lastIncludedIndex >= 1 ==> ImageAt(a, args.image, args.lastIncludedIndex)
    requires NodeOk(b, i, N.InstallSnapShot(p.node, args).0, p.tally)
    ensures PeerOk(b, i, p.(node := N.InstallSnapShot(p.node, args).0))
  {
    hide NodeOk, N.InstalledLog;
    var m := N.InstallSnapShot(p.node, args).0;
    if args.term < p.node.currentTerm || args.lastIncludedIndex <= p.node.lastApplied {
      QuietPeer(a, b, i, p, m, p.tally);
    } else {
      AdoptedPeer(a, b, i, p, m, args);
    }
  }

  lemma AdoptedPeer(a: Spec, b: Spec, i: nat, p: Peer, m: Node, args: SnapArgs)
    requires PeerOk(a, i, p) && N.Valid(p.node) && Ext(a, b)
    requires args.lastIncludedIndex > p.node.lastApplied
    requires ImageAt(a, args.image, args.lastIncludedIndex)
    requires m.lastApplied == args.lastIncludedIndex && m.pendingSnapshot.Some?
    requires m.saved.image == args.image
    requires NodeOk(b, i, m, p.tally)
    ensures PeerOk(b, i, p.(node := m))
  {
    BaseOf(a, i, p.node, p.tally);
    BaseOf(b, i, m, p.tally);
    hide NodeOk, StateAt, StreamOk, ServiceOk, N.Valid, Ext;
    StateAtExt(a, b, KvMachine.Restore(args.image.value.sm), args.lastIncludedIndex);
    ServiceExt(a, b, p.node, m, p.chan, p.service);
    StagedStream(a, b, p.node, m, p.chan);
  }

  /** Nothing sent so far reaches the snapshot that is staged. */
  lemma StagedStream(a: Spec, b: Spec, n: Node, m: Node, ch: C.Chan)
    requires Ext(a, b) && StreamOk(a, n, ch) && n.logs[0].index <= n.lastApplied < m.lastApplied
    requires m.pendingSnapshot.Some? && |m.logs| >= 1 && m.logs[0].index == m.lastApplied
    ensures StreamOk(b, m, ch)
  {
    hide MsgAt, Ext, InOrder;
    forall k | 0 <= k < |ch.sent| ensures MsgAt(b, ch.sent[k]) {
      MsgAtExt(a, b, ch.sent[k]);
    }
  }

  lemma BaseOf(a: Spec, i: nat, n: Node, tally: set<nat>)
    requires NodeOk(a, i, n, tally)
    ensures |n.logs| >= 1 && n.logs[0].index == a.servers[i].base <= n.lastApplied
    ensures n.pendingSnapshot.Some? ==> n.lastApplied == n.logs[0].index
    ensures n.pendingSnapshot.Some? ==>
              n.pendingSnapshot.value == SnapshotMsg(n.lastApplied, n.lastIncludedTerm, n.saved.image)
  {
  }

  lemma StepSnapRep(a: Spec, i: nat, p: Peer, m: C.Message) returns (b: Spec, q: Peer)
    requires Inv(a) && PeerOk(a, i, p) && N.Valid(p.node) && m.SnapRep? && MessageOk(a, m)
    requires a.n == p.node.peers
    ensures q == p.(node := N.HandleSnapReply(p.node, m.from, m.sargs, m.sreply))
    ensures StepOf(a, b, i) && PeerOk(b, i, q)
  {
    hide Inv, NodeOk, PeerOk, Acked, N.HandleSnapReply, N.Valid;
    PeerBasics(a, i, p);
    b := SimSnapReply(a, i, p.node, p.tally, m.from, m.sargs, m.sreply);
    q := p.(node := N.HandleSnapReply(p.node, m.from, m.sargs, m.sreply));
    QuietSnapReply(p.node, m.from, m.sargs, m.sreply);
    hide Quiet, MessageOk;
    QuietPeer(a, b, i, p, q.node, p.tally);
  }

  lemma QuietSnapReply(n: Node, peer: nat, args: SnapArgs, reply: SnapReply)
    requires N.Valid(n) && peer < n.peers
    ensures Quiet(n, N.HandleSnapReply(n, peer, args, reply))
  {
  }

  lemma StepStart(a: Spec, i: nat, p: Peer, op: Op) returns (b: Spec, q: Peer)
    requires Inv(a) && PeerOk(a, i, p) && N.Valid(p.node)
    ensures q == p.(node := N.Start(p.node, Cmd(op)).0)
    ensures StepOf(a, b, i) && PeerOk(b, i, q)
  {
    hide Inv, NodeOk;
    b := SimStart(a, i, p.node, p.tally, op);
    q := p.(node := N.Start(p.node, Cmd(op)).0);
    QuietPeer(a, b, i, p, q.node, p.tally);
  }

  // ---- Restarts ------------------------------------------------------------

  lemma RestartPeer(a: Spec, b: Spec, i: nat, p: Peer, n: Node)
    requires PeerOk(a, i, p) && Ext(a, b) && |n.saved.logs| >= 1 && |p.node.logs| >= 1
    requires n.saved.logs[0].index == p.node.logs[0].index && n.saved.image == p.node.saved.image
    requires NodeOk(b, i, N.Reboot(n), p.tally)
    ensures PeerOk(b, i, C.FreshPeer(n, p.tally))
  {
    hide NodeOk, StateAt, MsgAt, ImageAt, SavedOk;
    SavedExt(a, b, p.node, N.Reboot(n));
  }

  lemma StepReboot(a: Spec, i: nat, p: Peer) returns (b: Spec)
    requires Inv(a) && PeerOk(a, i, p) && N.Valid(p.node) && |p.node.saved.logs| >= 1
    requires p.node.saved.logs == p.node.logs
    ensures StepOf(a, b, i) && PeerOk(b, i, C.FreshPeer(p.node, p.tally))
  {
    hide Inv, NodeOk;
    PeerBasics(a, i, p);
    b := SimReboot(a, i, p.node, p.tally);
    RestartPeer(a, b, i, p, p.node);
  }

  lemma StepTornTimeout(a: Spec, i: nat, p: Peer) returns (b: Spec)
    requires Inv(a) && PeerOk(a, i, p) && N.Valid(p.node)
    ensures StepOf(a, b, i) && PeerOk(b, i, C.FreshPeer(N.NewTerm(p.node), p.tally))
  {
    hide Inv, NodeOk;
    PeerBasics(a, i, p);
    b := SimTorn(a, i, p.node, p.tally);
    RestartPeer(a, b, i, p, N.NewTerm(p.node));
  }

  /** A crash right after a greater term was saved by a vote or append request. */
  lemma StepTornDelivery(a: Spec, i: nat, p: Peer, term: nat) returns (b: Spec)
    requires Inv(a) && PeerOk(a, i, p) && N.Valid(p.node) && term > p.node.currentTerm
    ensures StepOf(a, b, i)
    ensures PeerOk(b, i, C.FreshPeer(N.UpdateTermAndStepDown(p.node, term), p.tally))
  {
    hide Inv, NodeOk;
    PeerBasics(a, i, p);
    var m := N.UpdateTermAndStepDown(p.node, term);
    var c := SimUpdateTerm(a, i, p.node, p.tally, term);
    b := SimReboot(c, i, m, p.tally);
    StepOfTrans(a, c, b, i);
    RestartPeer(a, b, i, p, m);
  }

  // ---- The channel and the service -----------------------------------------

  /** The message taken next continues the stream and is settled. */
  lemma TakenMsg(a: Spec, i: nat, p: Peer, m: Node, msg: ApplyMsg)
    requires Inv(a) && PeerOk(a, i, p) && a.servers[i].commit < |a.servers[i].log|
    requires Takes(p.node, a.servers[i], m, Some(msg))
    ensures Follows(Cover(p.chan.start, p.chan.sent), msg) && MsgAt(a, msg)
    ensures m.lastApplied == msg.index && m.pendingSnapshot.None?
  {
    hide Inv, NodeOk, StateAt, Settled, InOrder, MsgAt;
    PeerBasics(a, i, p);
    BaseOf(a, i, p.node, p.tally);
    if p.node.pendingSnapshot.None? {
      TakenEntry(a, i, p.node.lastApplied + 1);
    } else {
      StagedAt(a, p);
    }
  }

  lemma StagedAt(a: Spec, p: Peer)
    requires StreamOk(a, p.node, p.chan) && SavedOk(a, p.node) && p.node.pendingSnapshot.Some?
    requires p.node.lastApplied == p.node.logs[0].index
    requires p.node.pendingSnapshot.value ==
               SnapshotMsg(p.node.lastApplied, p.node.lastIncludedTerm, p.node.saved.image)
    ensures MsgAt(a, p.node.pendingSnapshot.value)
  {
  }

  lemma TakenEntry(a: Spec, i: nat, m: nat)
    requires Inv(a) && i < |a.servers| && 1 <= m <= a.servers[i].commit
    ensures m < |a.servers[i].log| && MsgAt(a, CommandMsg(m, a.servers[i].log[m].command))
  {
    hide Inv, Settled;
    CommitSettled(a, i, m);
    var l := a.servers[i].log[..m + 1];
    assert l[m] == a.servers[i].log[m];
  }

  lemma TakePeer(a: Spec, i: nat, p: Peer, m: Node, msg: Option<ApplyMsg>)
    requires Inv(a) && PeerOk(a, i, p) && a.servers[i].commit < |a.servers[i].log|
    requires p.chan.received == |p.chan.sent|
    requires Takes(p.node, a.servers[i], m, msg) && NodeOk(a, i, m, p.tally)
    ensures PeerOk(a, i, p.(node := m, chan :=
              if msg.Some? then p.chan.(sent := p.chan.sent + [msg.value]) else p.chan))
  {
    hide Inv, NodeOk, StreamOk, ServiceOk, SavedOk;
    PeerBasics(a, i, p);
    ExtRefl(a);
    SavedExt(a, a, p.node, m);
    if msg.Some? {
      TakenMsg(a, i, p, m, msg.value);
      StreamNext(a, p.node, m, p.chan, msg.value);
      ServiceSees(a, p.node, m, p.chan, p.service, msg.value);
    }
  }

  lemma StepTake(a: Spec, i: nat, p: Peer) returns (q: Peer)
    requires Inv(a) && PeerOk(a, i, p) && N.Valid(p.node) && p.chan.received == |p.chan.sent|
    ensures q == p.(node := N.Take(p.node).0, chan :=
                   if N.Take(p.node).1.Some?
                   then p.chan.(sent := p.chan.sent + [N.Take(p.node).1.value]) else p.chan)
    ensures PeerOk(a, i, q)
  {
    hide Inv, StreamOk, ServiceOk, SavedOk, N.Take;
    LogShape(a, i);
    TakeIs(p.node, a.servers[i], i, a.n);
    TakeNode(a, i, p.node, p.tally, N.Take(p.node).0, N.Take(p.node).1);
    TakePeer(a, i, p, N.Take(p.node).0, N.Take(p.node).1);
    q := p.(node := N.Take(p.node).0, chan :=
           if N.Take(p.node).1.Some?
           then p.chan.(sent := p.chan.sent + [N.Take(p.node).1.value]) else p.chan);
  }

  lemma StepSnapshot(a: Spec, i: nat, p: Peer) returns (b: Spec, q: Peer)
    requires Inv(a) && PeerOk(a, i, p) && N.Valid(p.node) && p.service.ready
    ensures q == p.(node := N.Snapshot(p.node, p.service.lastApplied, Rsm.CreateSnapshot(p.service)))
    ensures StepOf(a, b, i) && PeerOk(b, i, q)
  {
    hide Inv, NodeOk, StreamOk, StateAt, SavedOk;
    PeerBasics(a, i, p);
    var s := p.service;
    var image := Rsm.CreateSnapshot(s);
    b := SimSnapshot(a, i, p.node, p.tally, s.lastApplied, image);
    StateAtSnapshot(a, s.sm, s.lastApplied);
    q := p.(node := N.Snapshot(p.node, s.lastApplied, image));
    SnapshotPeer(a, b, i, p, s.lastApplied, image);
  }

  lemma SnapshotPeer(a: Spec, b: Spec, i: nat, p: Peer, index: nat, image: Image)
    requires PeerOk(a, i, p) && N.Valid(p.node) && Ext(a, b)
    requires ImageAt(a, Some(image), index)
    requires NodeOk(b, i, N.Snapshot(p.node, index, image), p.tally)
    ensures PeerOk(b, i, p.(node := N.Snapshot(p.node, index, image)))
  {
    hide NodeOk, StreamOk, ServiceOk, StateAt;
    var m := N.Snapshot(p.node, index, image);
    StreamExt(a, b, p.node, m, p.chan);
    ServiceExt(a, b, p.node, m, p.chan, p.service);
    StateAtExt(a, b, KvMachine.Restore(image.sm), index);
    if m == p.node { SavedExt(a, b, p.node, m); }
  }
}
