/**
 * What holds of every run of the cluster, whatever is lost, delayed, repeated
 * or reordered, whoever crashes and whenever snapshots are taken.
 */
module Safety {
  import opened Payload
  import opened Quorums
  import opened RaftTypes
  import opened RaftSpec
  import opened RaftHistory
  import opened RaftInv
  import opened SimElection
  import opened Relation
  import opened Delivery
  import opened Refinement
  import opened ClusterSteps
  import KvMachine
  import KvReplicas
  import N = RaftNode
  import C = Cluster

  // ---- A run follows the specification -------------------------------------

  /** A specification state for every state of the run, with a growing history. */
  ghost predicate Tracks(specs: seq<Spec>, cs: seq<C.State>) {
    && |specs| == |cs|
    && (forall k | 0 <= k < |cs| :: ClusterInv(specs[k], cs[k]))
    && (forall j, k | 0 <= j <= k < |cs| :: Ext(specs[j], specs[k]))
  }

  /** The heart of the matter: every run is matched by a run of the specification. */
  lemma {:induction false} RunRefines(cs: seq<C.State>) returns (specs: seq<Spec>)
    requires C.IsRun(cs)
    ensures Tracks(specs, cs)
  {
    hide ClusterInv, Ext, C.Steps;
    if |cs| == 1 {
      var a := InitInvariant(cs[0]);
      ExtRefl(a);
      specs := [a];
    } else {
      var k := |cs| - 1;
      var prefix := cs[..k];
      forall j | 0 <= j < |prefix| - 1 ensures C.Next(prefix[j], prefix[j + 1]) {
        assert C.Next(cs[j], cs[j + 1]);
      }
      var before := RunRefines(prefix);
      assert C.Next(cs[k - 1], cs[k - 1 + 1]);
      var b := NextRefines(before[k - 1], prefix[k - 1], cs[k]);
      specs := Extend(before, b, prefix, cs[k]);
      assert cs == prefix + [cs[k]];
    }
  }

  lemma NextRefines(a: Spec, c: C.State, c': C.State) returns (b: Spec)
    requires ClusterInv(a, c) && C.Next(c, c')
    ensures ClusterInv(b, c') && Ext(a, b)
  {
    hide ClusterInv, Ext;
    var st :| C.Steps(c, st, c');
    var d;
    b, d := EnabledStep(a, c, st);
  }

  lemma Extend(specs: seq<Spec>, b: Spec, cs: seq<C.State>, c: C.State) returns (r: seq<Spec>)
    requires Tracks(specs, cs) && cs != [] && ClusterInv(b, c) && Ext(specs[|specs| - 1], b)
    ensures Tracks(r, cs + [c])
  {
    hide ClusterInv, Ext;
    r := specs + [b];
    ExtRefl(b);
    forall j | 0 <= j < |specs| ensures Ext(specs[j], b) {
      ExtTrans(specs[j], specs[|specs| - 1], b);
    }
  }

  /** Nothing that can happen in a reachable state runs an access out of range. */
  lemma HandlersSafe(cs: seq<C.State>, k: nat, st: C.Step)
    requires C.IsRun(cs) && k < |cs| && C.Enabled(cs[k], st)
    ensures C.Safe(cs[k].peers[st.i], st)
  {
    hide ClusterInv, C.Act, C.Safe;
    var specs := RunRefines(cs);
    var b, c' := EnabledStep(specs[k], cs[k], st);
  }

  // ---- One peer in one state -----------------------------------------------

  ghost predicate At(cs: seq<C.State>, k: nat, x: nat) {
    k < |cs| && x < |cs[k].peers|
  }

  function NodeOf(cs: seq<C.State>, k: nat, x: nat): Node
    requires k < |cs| && x < |cs[k].peers|
  {
    cs[k].peers[x].node
  }

  lemma PeerIn(specs: seq<Spec>, cs: seq<C.State>, k: nat, x: nat)
    requires Tracks(specs, cs) && At(cs, k, x)
    ensures var p, a := cs[k].peers[x], specs[k];
            && Inv(a) && PeerOk(a, x, p) && x < |a.servers| == a.n == |cs[k].peers|
            && Core(p.node, a.servers[x], x, a.n) && AppliedOk(p.node, a.servers[x])
            && ServerOk(a, x, a.servers[x]) && N.Valid(p.node)
  {
    hide Inv, ServerOk, Core, AppliedOk, StreamOk, ServiceOk, SavedOk, MatchOk, TallyOk, MessageOk, N.Valid;
    assert ClusterInv(specs[k], cs[k]);
    PeerValid(specs[k], x, cs[k].peers[x]);
    InvServer(specs[k], x);
  }

  // ---- Elections -----------------------------------------------------------

  /** At most one server ever leads in a given term, in the whole run. */
  lemma ElectionSafety(cs: seq<C.State>, j: nat, x: nat, k: nat, y: nat)
    requires C.IsRun(cs) && At(cs, j, x) && At(cs, k, y)
    requires NodeOf(cs, j, x).state == Leader && NodeOf(cs, k, y).state == Leader
    requires NodeOf(cs, j, x).currentTerm == NodeOf(cs, k, y).currentTerm
    ensures x == y
  {
    hide Inv, PeerOk, ClusterInv, Wf, AgreedTo, C.IsRun;
    var specs := RunRefines(cs);
    PeerIn(specs, cs, j, x);
    PeerIn(specs, cs, k, y);
    if j <= k { assert Ext(specs[j], specs[k]); } else { assert Ext(specs[k], specs[j]); }
  }

  // ---- Logs ----------------------------------------------------------------

  /** The peer still holds the entry of this index, not only its snapshot. */
  predicate Holds(n: Node, i: nat)
    requires |n.logs| >= 1
  {
    n.logs[0].index < i < n.logs[0].index + |n.logs|
  }

  function EntryOf(n: Node, i: nat): LogEntry
    requires |n.logs| >= 1 && Holds(n, i)
  {
    n.logs[i - n.logs[0].index]
  }

  /**
   * Log matching under compaction, between any two peers at any two moments:
   * the same term at an index means the same entries up to it.
   */
  lemma LogMatching(cs: seq<C.State>, j: nat, x: nat, k: nat, y: nat, i: nat, h: nat)
    requires C.IsRun(cs) && At(cs, j, x) && At(cs, k, y)
    ensures N.Valid(NodeOf(cs, j, x)) && N.Valid(NodeOf(cs, k, y))
    ensures var m, n := NodeOf(cs, j, x), NodeOf(cs, k, y);
            Holds(m, i) && Holds(n, i) && EntryOf(m, i).term == EntryOf(n, i).term &&
            h <= i && Holds(m, h) && Holds(n, h) ==>
              EntryOf(m, h) == EntryOf(n, h)
  {
    var specs := RunRefines(cs);
    PeerIn(specs, cs, j, x);
    PeerIn(specs, cs, k, y);
    if j <= k {
      NodesMatch(specs[j], x, NodeOf(cs, j, x), specs[k], y, NodeOf(cs, k, y), i, h);
    } else {
      NodesMatch(specs[k], y, NodeOf(cs, k, y), specs[j], x, NodeOf(cs, j, x), i, h);
    }
  }

  lemma NodesMatch(a: Spec, x: nat, m: Node, b: Spec, y: nat, n: Node, i: nat, h: nat)
    requires Ext(a, b) && x < |a.servers| && y < |b.servers|
    requires ServerOk(a, x, a.servers[x]) && Core(m, a.servers[x], x, a.n)
    requires ServerOk(b, y, b.servers[y]) && Core(n, b.servers[y], y, b.n)
    ensures |m.logs| >= 1 && |n.logs| >= 1
    ensures Holds(m, i) && Holds(n, i) && EntryOf(m, i).term == EntryOf(n, i).term &&
            h <= i && Holds(m, h) && Holds(n, h) ==>
              EntryOf(m, h) == EntryOf(n, h)
  {
    var k, l := a.servers[x].log, b.servers[y].log;
    WfExt(a, b, k);
    HeldIs(m, a.servers[x], x, a.n, i);
    HeldIs(m, a.servers[x], x, a.n, h);
    HeldIs(n, b.servers[y], y, b.n, i);
    HeldIs(n, b.servers[y], y, b.n, h);
    if Holds(m, i) && Holds(n, i) && k[i].term == l[i].term && h <= i {
      Matching(b.terms, k, l, i);
      assert k[h] == k[..i + 1][h] && l[h] == l[..i + 1][h];
    }
  }

  lemma HeldIs(n: Node, r: Server, i: nat, size: nat, k: nat)
    requires Core(n, r, i, size)
    ensures |n.logs| >= 1 && n.logs[0].index == r.base
    ensures Holds(n, k) <==> r.base < k < |r.log|
    ensures Holds(n, k) ==> EntryOf(n, k) == r.log[k]
  {
    if r.base < k < |r.log| { SuffixEntry(r.log, r.base, k); }
  }

  // ---- The one history -----------------------------------------------------

  /** A longest settled log: every other is a prefix of it. */
  lemma {:induction false} Longest(a: Spec, bound: nat) returns (l: Log)
    requires bound >= 1 && forall k: Log | Settled(a, k) :: |k| <= bound
    ensures Settled(a, l) && forall k: Log | Settled(a, k) :: |k| <= |l|
  {
    hide Settled;
    if k: Log :| Settled(a, k) && |k| == bound {
      l := k;
    } else if bound == 1 {
      DummySettled(a);
      l := [Dummy];
    } else {
      l := Longest(a, bound - 1);
    }
  }

  lemma DummySettled(a: Spec)
    ensures Settled(a, [Dummy])
  {
    assert Agreed(a, [Dummy], 0);
  }

  lemma {:induction false} LogBound(terms: map<nat, TermRec>) returns (b: nat)
    ensures b >= 1 && forall t | t in terms :: |terms[t].log| <= b
    decreases |terms|
  {
    if terms.Keys == {} {
      b := 1;
    } else {
      var t :| t in terms.Keys;
      var rest := terms - {t};
      assert rest.Keys == terms.Keys - {t};
      assert |terms.Keys| == |terms| && |rest.Keys| == |rest|;
      var c := LogBound(rest);
      b := if |terms[t].log| > c then |terms[t].log| else c;
      assert forall u | u in terms && u != t :: u in rest && rest[u] == terms[u];
    }
  }

  lemma SettledBound(a: Spec, l: Log, b: nat)
    requires Settled(a, l) && b >= 1 && forall t | t in a.terms :: |a.terms[t].log| <= b
    ensures |l| <= b
  {
  }

  lemma WholeHistory(a: Spec) returns (l: Log)
    requires Inv(a)
    ensures Settled(a, l) && Wf(a.terms, l)
    ensures forall k: Log | Settled(a, k) :: |k| <= |l| && k == l[..|k|]
  {
    var b := LogBound(a.terms);
    forall k: Log | Settled(a, k) ensures |k| <= b { SettledBound(a, k, b); }
    l := Longest(a, b);
    hide Settled;
    forall k: Log | Settled(a, k) ensures k == l[..|k|] { SettledUnique(a, k, l); }
    InvTerms(a);
    SettledShape(a, l);
  }

  /** What a delivered message says agrees with the history l. */
  ghost predicate Told(l: Log, msg: ApplyMsg) {
    match msg
    case CommandMsg(index, command) => 1 <= index < |l| && command == l[index].command
    case SnapshotMsg(index, _, image) => 1 <= index < |l| && Encodes(l, image, index)
  }

  /** The snapshot is the service state after exactly the first m commands of l. */
  ghost predicate Encodes(l: Log, image: Option<Image>, m: nat) {
    && m < |l| && image.Some? && image.value.index == m
    && Folds(KvMachine.Restore(image.value.sm), l[..m + 1])
  }

  /** Everything the peer committed, delivered, saved or computed agrees with l. */
  ghost predicate Agrees(l: Log, p: Peer) {
    && |p.node.logs| >= 1
    && (forall i: nat | Holds(p.node, i) && i <= p.node.commitIndex :: i < |l| && EntryOf(p.node, i) == l[i])
    && (forall q | 0 <= q < |p.chan.sent| :: Told(l, p.chan.sent[q]))
    && (p.service.ready ==> p.service.lastApplied < |l| && Folds(p.service.sm, l[..p.service.lastApplied + 1]))
    && (p.node.logs[0].index > 0 ==> Encodes(l, p.node.saved.image, p.node.logs[0].index))
  }

  /** l is the history of the whole run. */
  ghost predicate HistoryOf(l: Log, cs: seq<C.State>) {
    Shape(l) && forall k: nat, x: nat | At(cs, k, x) :: Agrees(l, cs[k].peers[x])
  }

  /**
   * State machine safety: one history fits all that any server commits,
   * delivers, saves as a snapshot or computes, at any moment of the run.
   */
  lemma OneHistory(cs: seq<C.State>) returns (l: Log)
    requires C.IsRun(cs)
    ensures HistoryOf(l, cs)
  {
    hide HistoryOf, ClusterInv, Ext;
    var specs := RunRefines(cs);
    l := HistoryOfSpecs(specs, cs);
  }

  lemma HistoryOfSpecs(specs: seq<Spec>, cs: seq<C.State>) returns (l: Log)
    requires Tracks(specs, cs) && cs != []
    ensures HistoryOf(l, cs) && Wf(specs[|specs| - 1].terms, l)
  {
    hide Inv, ClusterInv, Agrees, PeerOk, Ext, Core, ServerOk, AppliedOk, Settled, Shape, InTerm;
    var b := specs[|specs| - 1];
    assert Inv(b) by { LastInv(specs, cs); }
    l := WholeHistory(b);
    forall k: nat, x: nat | At(cs, k, x) ensures Agrees(l, cs[k].peers[x]) {
      PeerIn(specs, cs, k, x);
      assert Ext(specs[k], b);
      PeerAgrees(specs[k], b, l, x, cs[k].peers[x]);
    }
  }

  lemma LastInv(specs: seq<Spec>, cs: seq<C.State>)
    requires Tracks(specs, cs) && cs != []
    ensures Inv(specs[|specs| - 1])
  {
    hide RaftSpec.Inv, PeerOk, MessageOk, Ext;
    assert ClusterInv(specs[|specs| - 1], cs[|cs| - 1]);
  }

  ghost predicate IsHistory(b: Spec, l: Log) {
    forall k: Log | Settled(b, k) :: |k| <= |l| && k == l[..|k|]
  }

  lemma PeerAgrees(a: Spec, b: Spec, l: Log, x: nat, p: Peer)
    requires Inv(a) && Ext(a, b) && IsHistory(b, l) && PeerOk(a, x, p)
    ensures Agrees(l, p)
  {
    hide Inv, IsHistory, Ext, Told, Encodes, Folds, MsgAt, StateAt, ImageAt, MatchOk, TallyOk;
    forall i: nat | |p.node.logs| >= 1 && Holds(p.node, i) && i <= p.node.commitIndex
      ensures i < |l| && EntryOf(p.node, i) == l[i]
    {
      CommitAgrees(a, b, l, x, p.node, i);
    }
    forall q | 0 <= q < |p.chan.sent| ensures Told(l, p.chan.sent[q]) {
      MsgAgrees(a, b, l, p.chan.sent[q]);
    }
    if p.service.ready { StateAgrees(a, b, l, p.service.sm, p.service.lastApplied); }
    if p.node.logs[0].index > 0 { ImageAgrees(a, b, l, p.node.saved.image, p.node.logs[0].index); }
  }

  lemma CommitAgrees(a: Spec, b: Spec, l: Log, x: nat, n: Node, i: nat)
    requires Inv(a) && Ext(a, b) && IsHistory(b, l) && x < |a.servers| && Core(n, a.servers[x], x, a.n)
    requires |n.logs| >= 1 && Holds(n, i) && i <= n.commitIndex
    ensures i < |l| && EntryOf(n, i) == l[i]
  {
    hide RaftSpec.Inv, Settled, Ext;
    HeldIs(n, a.servers[x], x, a.n, i);
    hide Core, Holds, EntryOf;
    CommitSettled(a, x, i);
    var k := a.servers[x].log[..i + 1];
    SettledExt(a, b, k);
    assert k[i] == l[..|k|][i];
  }

  lemma StateAgrees(a: Spec, b: Spec, l: Log, sm: KvMachine.State, m: nat)
    requires Ext(a, b) && IsHistory(b, l) && StateAt(a, sm, m)
    ensures m < |l| && Folds(sm, l[..m + 1])
  {
    hide Settled, Folds;
    var k: Log :| Settled(a, k) && |k| == m + 1 && Folds(sm, k);
    SettledExt(a, b, k);
  }

  lemma ImageAgrees(a: Spec, b: Spec, l: Log, image: Option<Image>, m: nat)
    requires Ext(a, b) && IsHistory(b, l) && ImageAt(a, image, m)
    ensures Encodes(l, image, m)
  {
    hide StateAt;
    StateAgrees(a, b, l, KvMachine.Restore(image.value.sm), m);
  }

  lemma MsgAgrees(a: Spec, b: Spec, l: Log, msg: ApplyMsg)
    requires Ext(a, b) && IsHistory(b, l) && MsgAt(a, msg)
    ensures Told(l, msg)
  {
    hide ImageAt, Settled;
    match msg
    case CommandMsg(index, command) =>
      var k: Log :| Settled(a, k) && |k| == index + 1 && k[index].command == command;
      SettledExt(a, b, k);
      assert k[index] == l[..|k|][index];
    case SnapshotMsg(index, _, image) =>
      ImageAgrees(a, b, l, image, index);
  }

  /** No two servers ever deliver different commands at the same index. */
  lemma StateMachineSafety(cs: seq<C.State>, j: nat, x: nat, q: nat, k: nat, y: nat, r: nat)
    requires C.IsRun(cs) && At(cs, j, x) && At(cs, k, y)
    requires q < |cs[j].peers[x].chan.sent| && cs[j].peers[x].chan.sent[q].CommandMsg?
    requires r < |cs[k].peers[y].chan.sent| && cs[k].peers[y].chan.sent[r].CommandMsg?
    requires cs[j].peers[x].chan.sent[q].index == cs[k].peers[y].chan.sent[r].index
    ensures cs[j].peers[x].chan.sent[q].command == cs[k].peers[y].chan.sent[r].command
  {
    hide C.IsRun, Shape, Encodes, Folds;
    var l := OneHistory(cs);
    assert Agrees(l, cs[j].peers[x]) && Agrees(l, cs[k].peers[y]);
    assert Told(l, cs[j].peers[x].chan.sent[q]) && Told(l, cs[k].peers[y].chan.sent[r]);
  }

  /**
   * Two services that have applied as many commands answer the next request
   * alike, though they took or restored snapshots at different points.
   */
  lemma RepliesAgree(cs: seq<C.State>, l: Log, j: nat, x: nat, k: nat, y: nat, req: KvMachine.Request)
    requires C.IsRun(cs) && HistoryOf(l, cs) && At(cs, j, x) && At(cs, k, y)
    requires cs[j].peers[x].service.ready && cs[k].peers[y].service.ready
    requires cs[j].peers[x].service.lastApplied == cs[k].peers[y].service.lastApplied
    ensures cs[j].peers[x].service.lastApplied < |l| && Shape(l[..cs[j].peers[x].service.lastApplied + 1])
    ensures var s, t := cs[j].peers[x].service, cs[k].peers[y].service;
            var log := Requests(l[..s.lastApplied + 1]);
            KvMachine.Windowed(log + [req]) ==>
              && s.sm.cache == t.sm.cache == KvMachine.RefRun(log).cache
              && KvMachine.DoOp(s.sm, req).1 == KvMachine.DoOp(t.sm, req).1
                   == KvMachine.RefOp(KvMachine.RefRun(log), req).1
  {
    hide C.IsRun;
    var s, t := cs[j].peers[x].service, cs[k].peers[y].service;
    assert Agrees(l, cs[j].peers[x]) && Agrees(l, cs[k].peers[y]);
    var log := Requests(l[..s.lastApplied + 1]);
    SameReplies(s.sm, t.sm, log, req);
  }

  lemma SameReplies(s: KvMachine.State, t: KvMachine.State, log: seq<KvMachine.Request>, req: KvMachine.Request)
    requires KvReplicas.Represents(s, log) && KvReplicas.Represents(t, log)
    ensures KvMachine.Windowed(log + [req]) ==>
              && s.cache == t.cache == KvMachine.RefRun(log).cache
              && KvMachine.DoOp(s, req).1 == KvMachine.DoOp(t, req).1
                   == KvMachine.RefOp(KvMachine.RefRun(log), req).1
  {
    if KvMachine.Windowed(log + [req]) {
      KvReplicas.RepresentsSees(s, log, req);
      KvReplicas.RepresentsSees(t, log, req);
    }
  }

  // ---- The apply stream ----------------------------------------------------

  /** Indices stay in order, and the stream has no gap and nothing twice. */
  lemma ApplyStream(cs: seq<C.State>, k: nat, x: nat)
    requires C.IsRun(cs) && At(cs, k, x)
    ensures var n := NodeOf(cs, k, x); var ch := cs[k].peers[x].chan;
            && N.Valid(n)
            && n.logs[0].index <= n.lastApplied <= n.commitIndex <= N.Last(n).index
            && n.logs[0].index == n.lastIncludedIndex && n.logs[0].term == n.lastIncludedTerm
            && (forall i, j | 0 <= i <= j < |n.logs| :: n.logs[i].term <= n.logs[j].term)
            && InOrder(ch.start, ch.sent)
            && Cover(ch.start, ch.sent) <= n.lastApplied
  {
    hide C.IsRun, RaftSpec.Inv, StreamOk, ServiceOk, SavedOk, InOrder, ClusterInv, Core, AppliedOk, ServerOk, N.Valid;
    var specs := RunRefines(cs);
    PeerIn(specs, cs, k, x);
    IndicesInOrder(specs[k], x, NodeOf(cs, k, x));
    StreamFacts(specs[k], cs[k].peers[x]);
  }

  lemma IndicesInOrder(a: Spec, x: nat, n: Node)
    requires x < |a.servers| && ServerOk(a, x, a.servers[x])
    requires Core(n, a.servers[x], x, a.n) && AppliedOk(n, a.servers[x])
    ensures |n.logs| >= 1
    ensures n.logs[0].index <= n.lastApplied <= n.commitIndex <= N.Last(n).index
    ensures n.logs[0].index == n.lastIncludedIndex && n.logs[0].term == n.lastIncludedTerm
    ensures forall i, j | 0 <= i <= j < |n.logs| :: n.logs[i].term <= n.logs[j].term
  {
    var r := a.servers[x];
    SuffixFacts(r.log, r.base);
    hide InTerm, Agreed, Suffix;
    forall i, j | 0 <= i <= j < |n.logs| ensures n.logs[i].term <= n.logs[j].term {
      assert r.log[r.base + i].term <= r.log[r.base + j].term;
    }
  }

  lemma StreamFacts(a: Spec, p: Peer)
    requires StreamOk(a, p.node, p.chan)
    ensures InOrder(p.chan.start, p.chan.sent) && Cover(p.chan.start, p.chan.sent) <= p.node.lastApplied
  {
  }

  // ---- Committed entries ---------------------------------------------------

  /** x's log up to a committed index, in any later state of the history. */
  lemma CommitAgreed(a: Spec, b: Spec, x: nat, i: nat)
    requires Inv(a) && Ext(a, b) && x < |a.servers| && i <= a.servers[x].commit
    ensures i < |a.servers[x].log| && Agreed(b, a.servers[x].log[..i + 1], a.servers[x].term)
    ensures a.servers[x].log[i].term <= a.servers[x].term
  {
    InvServer(a, x);
    var r := a.servers[x];
    hide RaftSpec.Inv, Ext, Agreed, InTerm;
    AgreedPrefix(a, r.log, i, r.commit, r.term);
    AgreedExt(a, b, r.log[..i + 1], r.term, r.term);
  }

  /**
   * Leader completeness: what a server committed is in the log of every leader
   * of a later term, whenever it leads, and of its own term from then on.
   */
  lemma LeadersHoldCommitted(cs: seq<C.State>, j: nat, x: nat, k: nat, y: nat, i: nat)
    requires C.IsRun(cs) && At(cs, j, x) && At(cs, k, y)
    requires NodeOf(cs, k, y).state == Leader
    requires || NodeOf(cs, k, y).currentTerm > NodeOf(cs, j, x).currentTerm
             || (NodeOf(cs, k, y).currentTerm == NodeOf(cs, j, x).currentTerm && j <= k)
    requires i <= NodeOf(cs, j, x).commitIndex
    ensures var m, n := NodeOf(cs, j, x), NodeOf(cs, k, y);
            && |m.logs| >= 1 && |n.logs| >= 1
            && i < n.logs[0].index + |n.logs|
            && (Holds(m, i) && Holds(n, i) ==> EntryOf(n, i) == EntryOf(m, i))
  {
    hide C.IsRun, RaftSpec.Inv, ClusterInv, PeerOk, AppliedOk, Ext, N.Valid, Wf, AgreedTo;
    var specs := RunRefines(cs);
    PeerIn(specs, cs, j, x);
    PeerIn(specs, cs, k, y);
    var a, b := specs[j], specs[k];
    HeldIs(NodeOf(cs, j, x), a.servers[x], x, a.n, i);
    HeldIs(NodeOf(cs, k, y), b.servers[y], y, b.n, i);
    if j <= k {
      CommittedInLater(a, x, b, y, i);
    } else {
      CommittedInEarlier(a, x, b, y, i);
    }
  }

  lemma CommittedInLater(a: Spec, x: nat, b: Spec, y: nat, i: nat)
    requires Inv(a) && Inv(b) && Ext(a, b)
    requires x < |a.servers| && y < |b.servers| && i <= a.servers[x].commit
    requires b.servers[y].role == Leader && b.servers[y].term >= a.servers[x].term
    ensures i < |a.servers[x].log| && i < |b.servers[y].log|
    ensures a.servers[x].log[i] == b.servers[y].log[i]
  {
    CommitAgreed(a, b, x, i);
    InvServer(b, y);
    AllLeadersComplete(b);
    InvTerms(b);
    hide RaftSpec.Inv, Ext, Agreed, TermsOk, LeadersComplete, Wf, AgreedTo;
    var k := a.servers[x].log[..i + 1];
    AgreedInLeader(b, k, a.servers[x].term, b.servers[y].term);
    assert k[i] == b.servers[y].log[..i + 1][i];
  }

  /** b is the earlier state: a later term's leader started out with the entry. */
  lemma CommittedInEarlier(a: Spec, x: nat, b: Spec, y: nat, i: nat)
    requires Inv(a) && Inv(b) && Ext(b, a)
    requires x < |a.servers| && y < |b.servers| && i <= a.servers[x].commit
    requires b.servers[y].role == Leader && b.servers[y].term > a.servers[x].term
    ensures i < |a.servers[x].log| && i < |b.servers[y].log|
    ensures a.servers[x].log[i] == b.servers[y].log[i]
  {
    ExtRefl(a);
    CommitAgreed(a, a, x, i);
    InvServer(b, y);
    AllLeadersComplete(a);
    InvTerms(a);
    hide RaftSpec.Inv, Agreed, TermsOk, LeadersComplete, Wf, AgreedTo;
    var k, t := a.servers[x].log[..i + 1], b.servers[y].term;
    assert t in a.terms && Grows(t, b.terms[t], a.terms[t]);
    AgreedInLeader(a, k, a.servers[x].term, t);
    assert k[i] == a.terms[t].log[..i + 1][i];
    assert b.servers[y].log == a.terms[t].log[..|b.servers[y].log|];
  }

  /** A settled log is the beginning of a majority's logs. */
  lemma HeldByMajority(b: Spec, l: Log) returns (q: set<nat>)
    requires Inv(b) && Settled(b, l) && |l| >= 2
    ensures IsQuorum(b.n, q)
    ensures forall v | v in q :: v < |b.servers| && |l| <= |b.servers[v].log| && l == b.servers[v].log[..|l|]
  {
    hide RaftSpec.Inv, Wf;
    var t: nat :| Agreed(b, l, t);
    var u: nat, j: nat :|
      Committed(b, u, j) && u <= t && 1 <= |l| <= j + 1 && l == b.terms[u].log[..|l|];
    hide Agreed, Settled;
    q := AckSet(b, u, j);
    forall v | v in q
      ensures v < |b.servers| && |l| <= |b.servers[v].log| && l == b.servers[v].log[..|l|]
    {
      AckerHolds(b, u, j, v);
      PrefixOfPrefix(b.servers[v].log, b.terms[u].log, |l|, j + 1);
    }
  }

  lemma AckerHolds(b: Spec, u: nat, j: nat, v: nat)
    requires Inv(b) && Committed(b, u, j) && v < b.n && Acked(b, v, u, j)
    ensures v < |b.servers| && j < |b.servers[v].log|
    ensures b.servers[v].log[..j + 1] == b.terms[u].log[..j + 1]
  {
    AllLeadersComplete(b);
    AcksMean(b, u, j, v);
    InvTerms(b);
    LeaderLogWf(b, u);
    InvServer(b, v);
    hide RaftSpec.Inv, TermsOk, Wf;
    Matching(b.terms, b.servers[v].log, b.terms[u].log, j);
  }

  lemma AcksMean(b: Spec, u: nat, j: nat, v: nat)
    requires Inv(b) && Entry(b, u, j) && v < b.n && Acked(b, v, u, j)
    requires LeadersComplete(b) && Committed(b, u, j)
    ensures v < |b.servers| && Has(b.servers[v].log, u, j)
  {
    assert Preserved(b, u, j, b.servers[v].log, b.servers[v].pterm + 1);
  }

  /**
   * Durability: once any server has committed an index, from then on a
   * majority has it in saved state, in the log or under a snapshot.
   */
  lemma CommittedIsDurable(cs: seq<C.State>, j: nat, x: nat, i: nat, k: nat) returns (q: set<nat>)
    requires C.IsRun(cs) && At(cs, j, x) && j <= k < |cs|
    requires 1 <= i <= NodeOf(cs, j, x).commitIndex
    ensures IsQuorum(|cs[k].peers|, q)
    ensures |NodeOf(cs, j, x).logs| >= 1
    ensures forall v | v in q :: v < |cs[k].peers| && Saves(NodeOf(cs, k, v), i, NodeOf(cs, j, x))
  {
    hide C.IsRun, RaftSpec.Inv, ClusterInv, PeerOk, AppliedOk, Ext, N.Valid, Settled, ServerOk, Core, Saves;
    var specs := RunRefines(cs);
    PeerIn(specs, cs, j, x);
    var a, b := specs[j], specs[k];
    CommitOf(NodeOf(cs, j, x), a.servers[x], x, a.n);
    CommitSettled(a, x, i);
    var l := a.servers[x].log[..i + 1];
    SettledExt(a, b, l);
    SizeOf(specs, cs, k);
    q := HeldByMajority(b, l);
    HeldIs(NodeOf(cs, j, x), a.servers[x], x, a.n, i);
    forall v | v in q ensures v < |cs[k].peers| && Saves(NodeOf(cs, k, v), i, NodeOf(cs, j, x)) {
      PeerIn(specs, cs, k, v);
      SavedHolds(a.servers[x], x, NodeOf(cs, j, x), a.n, b.servers[v], v, NodeOf(cs, k, v), b.n, i);
    }
  }

  /** n's saved state reaches i, with the entry m has there unless under a snapshot. */
  ghost predicate Saves(n: Node, i: nat, m: Node)
    requires |m.logs| >= 1
  {
    var s := n.saved;
    && |s.logs| >= 1 && i < s.logs[0].index + |s.logs|
    && (i <= s.logs[0].index || !Holds(m, i) || s.logs[i - s.logs[0].index] == EntryOf(m, i))
  }

  lemma CommitOf(n: Node, r: Server, x: nat, size: nat)
    requires Core(n, r, x, size)
    ensures n.commitIndex == r.commit
  {
  }

  lemma SizeOf(specs: seq<Spec>, cs: seq<C.State>, k: nat)
    requires Tracks(specs, cs) && k < |cs|
    ensures Inv(specs[k]) && |cs[k].peers| == specs[k].n
  {
    assert ClusterInv(specs[k], cs[k]);
  }

  lemma SavedHolds(r: Server, x: nat, m: Node, rs: nat, s: Server, v: nat, n: Node, ss: nat, i: nat)
    requires Core(m, r, x, rs) && Core(n, s, v, ss) && |m.logs| >= 1
    requires i < |r.log| && i < |s.log| && r.log[..i + 1] == s.log[..i + 1]
    ensures Saves(n, i, m)
  {
    HeldIs(m, r, x, rs, i);
    HeldIs(n, s, v, ss, i);
    assert r.log[i] == r.log[..i + 1][i] && s.log[i] == s.log[..i + 1][i];
  }

  // ---- Real time -----------------------------------------------------------

  /** The peer has committed the entry of this index and term. */
  predicate Commits(n: Node, index: int, term: nat)
    requires |n.logs| >= 1
  {
    index <= n.commitIndex && N.LogMatched(n, index, term)
  }

  /**
   * If Start gives out (index, term) when some server has already committed
   * i, and that entry is ever committed anywhere, then index is above i.
   */
  lemma RealTimeOrder(cs: seq<C.State>, j: nat, x: nat, i: nat, k: nat, z: nat, command: Command, h: nat, y: nat)
    requires C.IsRun(cs) && At(cs, j, x) && At(cs, k, z) && At(cs, h, y) && j <= k
    requires i <= NodeOf(cs, j, x).commitIndex
    ensures N.Valid(NodeOf(cs, k, z)) && N.Valid(NodeOf(cs, h, y))
    ensures var (_, index, term, isLeader) := N.Start(NodeOf(cs, k, z), command);
            isLeader && 0 <= term && Commits(NodeOf(cs, h, y), index, term) ==> index > i
  {
    hide C.IsRun, RaftSpec.Inv, ClusterInv, PeerOk, AppliedOk, Ext, N.Valid, ServerOk, Core;
    var specs := RunRefines(cs);
    PeerIn(specs, cs, j, x);
    PeerIn(specs, cs, k, z);
    PeerIn(specs, cs, h, y);
    var last := if h <= k then k else h;
    SizeOf(specs, cs, last);
    StartsAbove(specs[j], x, NodeOf(cs, j, x), i, specs[k], z, NodeOf(cs, k, z),
                specs[h], y, NodeOf(cs, h, y), specs[last], command);
  }

  lemma StartsAbove(a: Spec, x: nat, m: Node, i: nat, b: Spec, z: nat, n: Node,
                    d: Spec, y: nat, o: Node, last: Spec, command: Command)
    requires Inv(a) && Inv(b) && Inv(d) && Inv(last) && Ext(a, b) && Ext(a, last) && Ext(d, last)
    requires x < |a.servers| && Core(m, a.servers[x], x, a.n) && i <= m.commitIndex
    requires z < |b.servers| && Core(n, b.servers[z], z, b.n) && N.Valid(n)
    requires y < |d.servers| && Core(o, d.servers[y], y, d.n) && N.Valid(o)
    ensures var (_, index, term, isLeader) := N.Start(n, command);
            isLeader && 0 <= term && Commits(o, index, term) ==> index > i
  {
    hide RaftSpec.Inv, Ext, Settled, N.Valid;
    var (_, index, term, isLeader) := N.Start(n, command);
    if isLeader && 0 <= term && Commits(o, index, term) && index <= i {
      LogShape(b, z);
      NodeValid(n, b.servers[z], z, b.n);
      LogShape(d, y);
      MatchedMeans(o, d.servers[y], y, d.n, index, term);
      NotBefore(a, x, index, b, z, d, y, last);
    }
  }

  /** An entry of a committed log was in its term's leader log by then. */
  lemma NotBefore(a: Spec, x: nat, j: nat, b: Spec, z: nat, d: Spec, y: nat, last: Spec)
    requires Inv(a) && Inv(b) && Inv(d) && Inv(last) && Ext(a, b) && Ext(a, last) && Ext(d, last)
    requires x < |a.servers| && 1 <= j <= a.servers[x].commit
    requires z < |b.servers| && b.servers[z].role == Leader
    requires y < |d.servers| && j <= d.servers[y].commit
    requires j < |d.servers[y].log| && d.servers[y].log[j].term == b.servers[z].term
    ensures j < |b.servers[z].log|
  {
    hide RaftSpec.Inv, Settled, AgreedTo;
    var k, l := a.servers[x].log, d.servers[y].log;
    InvServer(b, z);
    InvServer(a, x);
    CommitSettled(a, x, j);
    CommitSettled(d, y, j);
    SettledExt(a, last, k[..j + 1]);
    SettledExt(d, last, l[..j + 1]);
    SettledUnique(last, k[..j + 1], l[..j + 1]);
    assert k[j] == k[..j + 1][j] && l[j] == l[..j + 1][j];
    assert InTerm(a.terms, k, j);
  }
}
