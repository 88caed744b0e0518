/** Backing up in a run: every rejection of a matching kind moves the leader back. */
module BackupRuns {
  import opened RaftTypes
  import opened RaftSpec
  import opened RaftHistory
  import opened Relation
  import opened SimFollower
  import opened Refinement
  import opened Safety
  import FastBackup
  import N = RaftNode
  import C = Cluster

  /** Where the leader looks next for a peer. */
  function NextFor(n: Node, peer: nat, args: AppendArgs, reply: AppendReply): int
    requires N.Valid(n) && peer < n.peers
    requires N.Leads(n, args.term) ==> args.prevLogIndex <= N.Last(n).index
  {
    N.HandleAppendReply(n, peer, args, reply).nextIndex[peer]
  }

  /** The request is answered for its log, and not from before the follower's snapshot. */
  predicate Considered(f: Node, args: AppendArgs)
    requires |f.logs| >= 1
  {
    args.term >= f.currentTerm && N.First(f).index <= args.prevLogIndex
  }

  /** A leader's log still names the entry before a request of its term, unless compacted. */
  lemma StillNamed(a: Spec, x: nat, n: Node, args: AppendArgs)
    requires x < |a.servers| && ServerOk(a, x, a.servers[x]) && Core(n, a.servers[x], x, a.n)
    requires AppendArgsOk(a, args) && N.Leads(n, args.term)
    ensures N.Valid(n) && 0 <= args.prevLogIndex <= N.Last(n).index
    ensures N.First(n).index <= args.prevLogIndex ==>
              n.logs[args.prevLogIndex - N.First(n).index].term == args.prevLogTerm
  {
    NodeValid(n, a.servers[x], x, a.n);
  }

  /** After f's rejection of the request, the leader n tries an earlier entry or sends its snapshot. */
  predicate MovesBack(n: Node, f: Node, y: nat, args: AppendArgs)
    requires N.Valid(n) && N.Valid(f) && N.Numbered(args) && y < n.peers && args.prevLogIndex <= N.Last(n).index
  {
    var reply := N.AppendEntry(f, args).1;
    Considered(f, args) && !reply.success ==>
      var next := NextFor(n, y, args, reply);
      && N.First(n).index <= next
      && (next <= args.prevLogIndex || next == N.First(n).index)
      && (next == N.First(n).index ==> N.Behind(N.HandleAppendReply(n, y, args, reply), y))
  }

  lemma NodesMoveBack(n: Node, f: Node, y: nat, args: AppendArgs)
    requires N.Valid(n) && N.Valid(f) && N.Numbered(args) && y < n.peers && N.Leads(n, args.term)
    requires FastBackup.TermsSorted(n.logs) && FastBackup.TermsSorted(f.logs)
    requires args.prevLogIndex <= N.Last(n).index
    requires N.First(n).index <= args.prevLogIndex ==>
               n.logs[args.prevLogIndex - N.First(n).index].term == args.prevLogTerm
    ensures MovesBack(n, f, y, args)
  {
    if Considered(f, args) && !N.AppendEntry(f, args).1.success {
      var g := N.UpdateTermAndStepDown(f, args.term).(state := Follower);
      FastBackup.BackupProgress(n, g, y, args);
      hide N.StoreEntries, N.Mismatch, N.RollBackIndex;
      assert N.AppendEntry(f, args).1 == N.Mismatch(g, args);
    }
  }

  /**
   * y rejects a request; whenever the answer reaches the leader of that term,
   * the leader next tries a strictly earlier entry, or is left at its own
   * snapshot and sends that.
   */
  lemma RejectionMovesBack(cs: seq<C.State>, j: nat, y: nat, m: C.Message, k: nat, x: nat)
    requires C.IsRun(cs) && At(cs, j, y) && At(cs, k, x) && j <= k
    requires m in cs[j].msgs && m.AppReq? && m.to == y
    requires N.Leads(NodeOf(cs, k, x), m.aargs.term)
    ensures N.Valid(NodeOf(cs, j, y)) && N.Numbered(m.aargs)
    ensures N.Valid(NodeOf(cs, k, x)) && y < NodeOf(cs, k, x).peers
    ensures m.aargs.prevLogIndex <= N.Last(NodeOf(cs, k, x)).index
    ensures MovesBack(NodeOf(cs, k, x), NodeOf(cs, j, y), y, m.aargs)
  {
    hide RaftSpec.Inv, PeerOk, ServerOk, AppliedOk, AppendArgsOk, Ext, MovesBack, ClusterInv, C.Init, C.Next, Core;
    var specs := RunRefines(cs);
    var f, n, args := NodeOf(cs, j, y), NodeOf(cs, k, x), m.aargs;
    PeerIn(specs, cs, j, y);
    PeerIn(specs, cs, k, x);
    SentAlready(specs, cs, j, m);
    SameSize(specs, cs, j, k, x);
    assert Ext(specs[j], specs[k]);
    AppendArgsExt(specs[j], specs[k], args);
    StillNamed(specs[k], x, n, args);
    ApplyStream(cs, j, y);
    ApplyStream(cs, k, x);
    NodesMoveBack(n, f, y, args);
  }

  lemma SameSize(specs: seq<Spec>, cs: seq<C.State>, j: nat, k: nat, x: nat)
    requires Tracks(specs, cs) && j <= k < |cs| && x < |cs[k].peers|
    ensures |cs[j].peers| == |cs[k].peers| == NodeOf(cs, k, x).peers
  {
    hide RaftSpec.Inv, ServerOk, AppliedOk, N.Valid;
    SizeOf(specs, cs, j);
    SizeOf(specs, cs, k);
    PeerIn(specs, cs, k, x);
    assert Ext(specs[j], specs[k]);
  }

  lemma SentAlready(specs: seq<Spec>, cs: seq<C.State>, j: nat, m: C.Message)
    requires Tracks(specs, cs) && j < |cs| && m in cs[j].msgs && m.AppReq?
    ensures AppendArgsOk(specs[j], m.aargs) && N.Numbered(m.aargs)
  {
    hide RaftSpec.Inv, PeerOk, AppendArgsOk, Ext;
    assert ClusterInv(specs[j], cs[j]);
    InvTerms(specs[j]);
    ArgsStretch(specs[j], m.aargs);
  }
}
