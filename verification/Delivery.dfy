/**
 * What reaches the services: the agreed history, the apply streams that follow
 * it, and snapshots and service states that stand for a prefix of it.
 */
module Delivery {
  import opened Payload
  import opened RaftTypes
  import opened RaftSpec
  import opened RaftHistory
  import opened RaftInv
  import KvMachine
  import KvReplicas
  import Rsm
  import Cluster

  // ---- The agreed history --------------------------------------------------

  /** l is a prefix of the one history the cluster has agreed on. */
  ghost predicate Settled(a: Spec, l: Log) {
    exists t: nat :: Agreed(a, l, t)
  }

  lemma SettledExt(a: Spec, b: Spec, l: Log)
    requires Ext(a, b) && Settled(a, l)
    ensures Settled(b, l)
  {
    var t: nat :| Agreed(a, l, t);
    AgreedExt(a, b, l, t, t);
  }

  lemma SettledUnique(a: Spec, k: Log, l: Log)
    requires Inv(a) && Settled(a, k) && Settled(a, l) && |k| <= |l|
    ensures k == l[..|k|]
  {
    var t: nat :| Agreed(a, k, t);
    var u: nat :| Agreed(a, l, u);
    AllLeadersComplete(a);
    InvTerms(a);
    hide Inv, TermsOk, LeadersComplete, Agreed;
    AgreedUnique(a, k, l, t, u);
  }

  lemma SettledShape(a: Spec, l: Log)
    requires TermsOk(a) && Settled(a, l)
    ensures Wf(a.terms, l)
  {
    var t: nat :| Agreed(a, l, t);
    if l != [Dummy] {
      var u: nat, j: nat :|
        Committed(a, u, j) && u <= t && 1 <= |l| <= j + 1 && l == a.terms[u].log[..|l|];
      LeaderLogWf(a, u);
      WfPrefix(a.terms, a.terms[u].log, |l|);
    }
  }

  /** Everything a server has committed is settled. */
  lemma CommitSettled(a: Spec, i: nat, c: nat)
    requires Inv(a) && i < |a.servers| && c <= a.servers[i].commit
    ensures c < |a.servers[i].log| && Settled(a, a.servers[i].log[..c + 1])
  {
    var r := a.servers[i];
    assert ServerOk(a, i, r);
    AgreedPrefix(a, r.log, c, r.commit, r.term);
  }

  /** The requests in a log, in order. */
  function Requests(l: Log): (r: seq<KvMachine.Request>)
    requires forall i | 1 <= i < |l| :: l[i].command.Cmd?
  {
    if |l| <= 1 then [] else Requests(l[..|l| - 1]) + [l[|l| - 1].command.op.req]
  }

  /** The state is the service's after exactly the entries of l. */
  ghost predicate Folds(sm: KvMachine.State, l: Log) {
    Shape(l) && KvReplicas.Represents(sm, Requests(l))
  }

  ghost predicate StateAt(a: Spec, sm: KvMachine.State, m: nat) {
    exists l: Log :: Settled(a, l) && |l| == m + 1 && Folds(sm, l)
  }

  ghost predicate EntryAt(a: Spec, command: Command, m: nat) {
    exists l: Log :: Settled(a, l) && |l| == m + 1 && l[m].command == command
  }

  /** A snapshot taken at m encodes the state after the first m commands. */
  ghost predicate ImageAt(a: Spec, image: Option<Image>, m: nat) {
    image.Some? && image.value.index == m && StateAt(a, KvMachine.Restore(image.value.sm), m)
  }

  lemma StateAtExt(a: Spec, b: Spec, sm: KvMachine.State, m: nat)
    requires Ext(a, b) && StateAt(a, sm, m)
    ensures StateAt(b, sm, m)
  {
    var l: Log :| Settled(a, l) && |l| == m + 1 && Folds(sm, l);
    SettledExt(a, b, l);
  }

  lemma EntryAtExt(a: Spec, b: Spec, command: Command, m: nat)
    requires Ext(a, b) && EntryAt(a, command, m)
    ensures EntryAt(b, command, m)
  {
    var l: Log :| Settled(a, l) && |l| == m + 1 && l[m].command == command;
    SettledExt(a, b, l);
  }

  lemma StateAtStart(a: Spec)
    ensures StateAt(a, KvMachine.Empty, 0)
  {
    assert Agreed(a, [Dummy], 0);
    assert Settled(a, [Dummy]);
    KvReplicas.RepresentsEmpty();
    assert Folds(KvMachine.Empty, [Dummy]);
  }

  /** Executing the next settled command moves the state on by one. */
  lemma StateAtNext(a: Spec, sm: KvMachine.State, m: nat, command: Command)
    requires Inv(a) && StateAt(a, sm, m) && EntryAt(a, command, m + 1)
    ensures command.Cmd?
    ensures StateAt(a, KvMachine.DoOp(sm, command.op.req).0, m + 1)
  {
    hide Inv, Settled, TermsOk, InTerm, KvMachine.DoOp, KvReplicas.Represents;
    var k: Log :| Settled(a, k) && |k| == m + 1 && Folds(sm, k);
    var l: Log :| Settled(a, l) && |l| == m + 2 && l[m + 1].command == command;
    SettledUnique(a, k, l);
    InvTerms(a);
    SettledShape(a, l);
    KvReplicas.RepresentsOp(sm, Requests(k), command.op.req);
    assert Requests(l) == Requests(k) + [command.op.req];
    assert Folds(KvMachine.DoOp(sm, command.op.req).0, l);
  }

  lemma StateAtSnapshot(a: Spec, sm: KvMachine.State, m: nat)
    requires StateAt(a, sm, m)
    ensures StateAt(a, KvMachine.Restore(KvMachine.Snapshot(sm)), m)
  {
    var l: Log :| Settled(a, l) && |l| == m + 1 && Folds(sm, l);
    KvReplicas.RepresentsRestore(sm, Requests(l));
    assert Folds(KvMachine.Restore(KvMachine.Snapshot(sm)), l);
  }

  // ---- Apply streams -------------------------------------------------------

  /** The index covered once these messages are delivered. */
  function Cover(start: nat, sent: seq<ApplyMsg>): nat {
    if sent == [] then start else sent[|sent| - 1].index
  }

  /** A command comes right after what is covered; a snapshot raises it. */
  predicate Follows(c: nat, msg: ApplyMsg) {
    match msg
    case CommandMsg(index, _) => index == c + 1
    case SnapshotMsg(index, _, _) => index > c
  }

  ghost predicate InOrder(start: nat, sent: seq<ApplyMsg>) {
    forall k | 0 <= k < |sent| :: Follows(Cover(start, sent[..k]), sent[k])
  }

  lemma InOrderNext(start: nat, sent: seq<ApplyMsg>, msg: ApplyMsg)
    requires InOrder(start, sent) && Follows(Cover(start, sent), msg)
    ensures InOrder(start, sent + [msg])
  {
    forall k | 0 <= k < |sent| + 1
      ensures Follows(Cover(start, (sent + [msg])[..k]), (sent + [msg])[k])
    {
      assert (sent + [msg])[..k] == sent[..k];
      if k == |sent| { assert sent[..k] == sent; }
    }
  }

  /** A delivered command is the agreed one; a snapshot stands for the prefix. */
  ghost predicate MsgAt(a: Spec, msg: ApplyMsg) {
    match msg
    case CommandMsg(index, command) => index >= 1 && EntryAt(a, command, index)
    case SnapshotMsg(index, _, image) => index >= 1 && ImageAt(a, image, index)
  }

  lemma MsgAtExt(a: Spec, b: Spec, msg: ApplyMsg)
    requires Ext(a, b) && MsgAt(a, msg)
    ensures MsgAt(b, msg)
  {
    match msg
    case CommandMsg(index, command) => EntryAtExt(a, b, command, index);
    case SnapshotMsg(index, _, image) =>
      StateAtExt(a, b, KvMachine.Restore(image.value.sm), index);
  }

  // ---- One server's channel, service and saved snapshot --------------------

  ghost predicate StreamOk(a: Spec, n: Node, ch: Cluster.Chan) {
    && InOrder(ch.start, ch.sent) && ch.received <= |ch.sent| <= ch.received + 1
    && (forall k | 0 <= k < |ch.sent| :: MsgAt(a, ch.sent[k]))
    && |n.logs| >= 1 && ch.start <= n.logs[0].index
    && (if n.pendingSnapshot.Some? then Cover(ch.start, ch.sent) < n.lastApplied
        else Cover(ch.start, ch.sent) == n.lastApplied)
  }

  ghost predicate ServiceOk(a: Spec, n: Node, ch: Cluster.Chan, s: Rsm.Service) {
    if s.ready then
      && ch.received <= |ch.sent| && Cover(ch.start, ch.sent[..ch.received]) <= s.lastApplied <= n.lastApplied
      && StateAt(a, s.sm, s.lastApplied)
    else s == Rsm.Booting && ch.received == 0
  }

  /** A compacted log is backed by a saved snapshot of exactly its beginning. */
  ghost predicate SavedOk(a: Spec, n: Node) {
    && |n.logs| >= 1
    && (if n.logs[0].index == 0 then n.saved.image.None?
        else ImageAt(a, n.saved.image, n.logs[0].index))
  }

  lemma StreamExt(a: Spec, b: Spec, n: Node, m: Node, ch: Cluster.Chan)
    requires Ext(a, b) && StreamOk(a, n, ch)
    requires |m.logs| >= 1 && n.logs[0].index <= m.logs[0].index
    requires m.lastApplied == n.lastApplied && m.pendingSnapshot == n.pendingSnapshot
    ensures StreamOk(b, m, ch)
  {
    forall k | 0 <= k < |ch.sent| ensures MsgAt(b, ch.sent[k]) {
      MsgAtExt(a, b, ch.sent[k]);
    }
  }

  lemma ServiceExt(a: Spec, b: Spec, n: Node, m: Node, ch: Cluster.Chan, s: Rsm.Service)
    requires Ext(a, b) && ServiceOk(a, n, ch, s) && n.lastApplied <= m.lastApplied
    ensures ServiceOk(b, m, ch, s)
  {
    if s.ready { StateAtExt(a, b, s.sm, s.lastApplied); }
  }

  lemma SavedExt(a: Spec, b: Spec, n: Node, m: Node)
    requires Ext(a, b) && SavedOk(a, n)
    requires |m.logs| >= 1 && n.logs[0].index == m.logs[0].index && m.saved.image == n.saved.image
    ensures SavedOk(b, m)
  {
    if n.logs[0].index != 0 {
      StateAtExt(a, b, KvMachine.Restore(n.saved.image.value.sm), n.logs[0].index);
    }
  }

  // ---- Steps of the channel and the service --------------------------------

  /** Sending a message that continues the stream. */
  lemma StreamNext(a: Spec, n: Node, m: Node, ch: Cluster.Chan, msg: ApplyMsg)
    requires StreamOk(a, n, ch) && ch.received == |ch.sent|
    requires Follows(Cover(ch.start, ch.sent), msg) && MsgAt(a, msg)
    requires m.lastApplied == msg.index && m.pendingSnapshot.None? && m.logs == n.logs
    ensures StreamOk(a, m, ch.(sent := ch.sent + [msg]))
  {
    hide MsgAt;
    InOrderNext(ch.start, ch.sent, msg);
    hide InOrder, Follows;
  }

  lemma ServiceSees(a: Spec, n: Node, m: Node, ch: Cluster.Chan, s: Rsm.Service, msg: ApplyMsg)
    requires ServiceOk(a, n, ch, s) && n.lastApplied <= m.lastApplied
    ensures ServiceOk(a, m, ch.(sent := ch.sent + [msg]), s)
  {
    if s.ready { assert (ch.sent + [msg])[..ch.received] == ch.sent[..ch.received]; }
  }

  lemma ReceiveOk(a: Spec, n: Node, ch: Cluster.Chan, s: Rsm.Service)
    requires Inv(a) && StreamOk(a, n, ch) && ServiceOk(a, n, ch, s)
    requires s.ready && ch.received < |ch.sent|
    ensures ch.sent[ch.received].CommandMsg? ==> ch.sent[ch.received].command.Cmd?
    ensures ch.sent[ch.received].SnapshotMsg? ==>
              ch.sent[ch.received].image.Some? &&
              ch.sent[ch.received].image.value.index == ch.sent[ch.received].index
    ensures ServiceOk(a, n, ch.(received := ch.received + 1), Cluster.Received(s, ch.sent[ch.received]))
  {
    hide Inv, StateAt, EntryAt, KvMachine.DoOp, KvMachine.Restore;
    var k := ch.received;
    var msg := ch.sent[k];
    assert Follows(Cover(ch.start, ch.sent[..k]), msg) && MsgAt(a, msg);
    assert ch.sent[..k + 1] == ch.sent;
    match msg
    case CommandMsg(index, command) =>
      CommandIsOp(a, command, index);
      if index > s.lastApplied { StateAtNext(a, s.sm, s.lastApplied, command); }
    case SnapshotMsg(index, _, image) =>
  }

  lemma CommandIsOp(a: Spec, command: Command, m: nat)
    requires Inv(a) && m >= 1 && EntryAt(a, command, m)
    ensures command.Cmd?
  {
    var l: Log :| Settled(a, l) && |l| == m + 1 && l[m].command == command;
    InvTerms(a);
    SettledShape(a, l);
  }

  /** The end of MakeRSM, whenever it runs: the image on disk is for `base`. */
  lemma RestoreOk(a: Spec, n: Node, ch: Cluster.Chan, s: Rsm.Service)
    requires StreamOk(a, n, ch) && ServiceOk(a, n, ch, s) && SavedOk(a, n)
    requires !s.ready && n.logs[0].index <= n.lastApplied
    ensures ServiceOk(a, n, ch, Rsm.Restored(s, n.saved.image))
  {
    assert ch.sent[..0] == [];
    StateAtStart(a);
  }
}
