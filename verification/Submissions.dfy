/** Which entry a submission's result belongs to, over whole runs. */
module Submissions {
  import opened Payload
  import opened RaftTypes
  import opened RaftSpec
  import opened RaftHistory
  import opened Relation
  import opened Refinement
  import opened Safety
  import N = RaftNode
  import C = Cluster

  /** In step k server z, leading, takes op into its log. */
  ghost predicate StartedAt(cs: seq<C.State>, k: nat, z: nat, op: Op) {
    && k + 1 < |cs| && At(cs, k, z)
    && C.Steps(cs[k], C.Start(z, op), cs[k + 1]) && NodeOf(cs, k, z).state == Leader
  }

  /** The entry Start appends, with the index and term it returns. */
  function Appended(n: Node, op: Op): LogEntry
    requires |n.logs| >= 1
  {
    LogEntry(Cmd(op), n.currentTerm, N.Last(n).index + 1)
  }

  /** That is the entry at that index in the next state. */
  lemma AppendedHeld(cs: seq<C.State>, k: nat, z: nat, op: Op)
    requires StartedAt(cs, k, z, op) && N.Valid(NodeOf(cs, k, z))
    ensures var n, e := NodeOf(cs, k, z), Appended(NodeOf(cs, k, z), op);
            && N.Start(n, Cmd(op)).1 == e.index && N.Start(n, Cmd(op)).2 == e.term
            && At(cs, k + 1, z) && NodeOf(cs, k + 1, z) == N.Start(n, Cmd(op)).0
            && |NodeOf(cs, k + 1, z).logs| >= 1
            && Holds(NodeOf(cs, k + 1, z), e.index) && EntryOf(NodeOf(cs, k + 1, z), e.index) == e
  {
  }

  /**
   * Whatever server holds an entry at that index, at whatever moment: it has
   * the term Start returned if and only if it is the entry Start appended.
   */
  lemma StartedEntry(cs: seq<C.State>, k: nat, z: nat, op: Op, j: nat, y: nat)
    requires C.IsRun(cs) && StartedAt(cs, k, z, op) && At(cs, j, y)
    ensures N.Valid(NodeOf(cs, k, z)) && N.Valid(NodeOf(cs, j, y))
    ensures var e := Appended(NodeOf(cs, k, z), op);
            Holds(NodeOf(cs, j, y), e.index) ==>
              (EntryOf(NodeOf(cs, j, y), e.index).term == e.term <==> EntryOf(NodeOf(cs, j, y), e.index) == e)
  {
    hide C.IsRun, C.Steps;
    LogMatching(cs, k, z, j, y, 0, 0);
    AppendedHeld(cs, k, z, op);
    var e := Appended(NodeOf(cs, k, z), op);
    LogMatching(cs, k + 1, z, j, y, e.index, e.index);
  }

  /** The history has the entry Start appended at its index exactly when it has the term there. */
  ghost predicate OwnByTerm(l: Log, cs: seq<C.State>) {
    forall k: nat, z: nat, op: Op | StartedAt(cs, k, z, op) && |NodeOf(cs, k, z).logs| >= 1 ::
      var e := Appended(NodeOf(cs, k, z), op);
      e.index < |l| ==> (l[e.index].term == e.term <==> l[e.index] == e)
  }

  lemma SubmittedHistory(cs: seq<C.State>) returns (l: Log)
    requires C.IsRun(cs)
    ensures HistoryOf(l, cs) && OwnByTerm(l, cs)
  {
    hide C.Init, C.Next, C.Steps, HistoryOf, ClusterInv, Ext, Wf;
    var specs := RunRefines(cs);
    l := HistoryOfSpecs(specs, cs);
    forall k: nat, z: nat, op: Op | StartedAt(cs, k, z, op) && |NodeOf(cs, k, z).logs| >= 1
      ensures var e := Appended(NodeOf(cs, k, z), op);
              e.index < |l| ==> (l[e.index].term == e.term <==> l[e.index] == e)
    {
      StartedInHistory(specs, cs, l, k, z, op);
    }
  }

  lemma StartedInHistory(specs: seq<Spec>, cs: seq<C.State>, l: Log, k: nat, z: nat, op: Op)
    requires Tracks(specs, cs) && StartedAt(cs, k, z, op) && |NodeOf(cs, k, z).logs| >= 1
    requires Wf(specs[|specs| - 1].terms, l)
    ensures var e := Appended(NodeOf(cs, k, z), op);
            e.index < |l| ==> (l[e.index].term == e.term <==> l[e.index] == e)
  {
    hide ClusterInv, Inv, PeerOk, AppliedOk, AgreedTo, Wf, Ext;
    PeerIn(specs, cs, k, z);
    AppendedHeld(cs, k, z, op);
    PeerIn(specs, cs, k + 1, z);
    hide C.Steps;
    var e, a := Appended(NodeOf(cs, k, z), op), specs[k + 1];
    HeldIs(NodeOf(cs, k + 1, z), a.servers[z], z, a.n, e.index);
    EntryInHistory(a, specs[|specs| - 1], l, e);
  }

  lemma EntryInHistory(a: Spec, b: Spec, l: Log, e: LogEntry)
    requires Ext(a, b) && Wf(b.terms, l) && 1 <= e.index
    requires e.term in a.terms && e.index < |a.terms[e.term].log| && a.terms[e.term].log[e.index] == e
    ensures e.index < |l| ==> (l[e.index].term == e.term <==> l[e.index] == e)
  {
    PrefixExt(a, b, e.term, e.index + 1);
    var i := e.index;
    assert a.terms[e.term].log[..i + 1][i] == b.terms[e.term].log[..i + 1][i];
    if i < |l| && l[i].term == e.term {
      assert InTerm(b.terms, l, i);
      assert l[i] == l[..i + 1][i];
    }
  }

  /**
   * A submission's index is delivered: the command is its own entry's exactly
   * when the agreed entry has the term Start returned.
   */
  lemma DeliveredIsOwn(cs: seq<C.State>, l: Log, k: nat, z: nat, op: Op, j: nat, y: nat, q: nat)
    requires C.IsRun(cs) && HistoryOf(l, cs) && OwnByTerm(l, cs) && StartedAt(cs, k, z, op) && At(cs, j, y)
    requires |NodeOf(cs, k, z).logs| >= 1
    requires q < |cs[j].peers[y].chan.sent| && cs[j].peers[y].chan.sent[q].CommandMsg?
    requires cs[j].peers[y].chan.sent[q].index == Appended(NodeOf(cs, k, z), op).index
    ensures var e := Appended(NodeOf(cs, k, z), op);
            && e.index < |l| && cs[j].peers[y].chan.sent[q].command == l[e.index].command
            && (l[e.index] == e <==> l[e.index].term == e.term)
            && (l[e.index].term == e.term ==> cs[j].peers[y].chan.sent[q].command == Cmd(op))
  {
    hide C.IsRun, StartedAt, Encodes, Shape;
    assert Agrees(l, cs[j].peers[y]);
    assert Told(l, cs[j].peers[y].chan.sent[q]);
  }
}
