/** Every step of the cluster is safe to take and keeps the invariant. */
module ClusterSteps {
  import opened RaftTypes
  import opened RaftSpec
  import opened RaftHistory
  import opened RaftInv
  import opened Relation
  import opened SimElection
  import opened SimLeader
  import opened SimFollower
  import opened Delivery
  import opened Refinement
  import N = RaftNode
  import Rsm
  import C = Cluster

  // ---- Safety of the handlers ----------------------------------------------

  /** In a reachable state every enabled step can run: no index is out of range. */
  lemma SafeStep(a: Spec, i: nat, p: Peer, st: C.Step)
    requires Inv(a) && PeerOk(a, i, p) && C.Ready(p, st) && st.i == i
    requires C.Delivers(st) ==> MessageOk(a, st.m)
    ensures C.Safe(p, st)
  {
    hide Inv, PeerOk, NodeOk, ServerOk, AppendArgsOk;
    PeerValid(a, i, p);
    InvTerms(a);
    match st
    case DeliverAppReq(_, m) =>
      ArgsStretch(a, m.aargs);
    case DeliverAppRep(_, m) =>
      SafeAppRep(a, i, p, m.aargs);
    case ReceiveMsg(_) =>
      SafeReceive(a, i, p);
    case _ =>
  }

  lemma SafeAppRep(a: Spec, i: nat, p: Peer, args: AppendArgs)
    requires Inv(a) && PeerOk(a, i, p) && N.Valid(p.node) && AppendArgsOk(a, args)
    ensures N.Leads(p.node, args.term) ==> args.prevLogIndex <= N.Last(p.node).index
  {
    hide Inv, NodeOk, ServerOk, AppendArgsOk;
    PeerBasics(a, i, p);
    InvServer(a, i);
    OwnRequest(a, i, p.node, p.tally, args);
  }

  lemma SafeReceive(a: Spec, i: nat, p: Peer)
    requires Inv(a) && PeerOk(a, i, p) && p.service.ready && p.chan.received < |p.chan.sent|
    ensures C.Readable(p.chan.sent[p.chan.received])
  {
    hide Inv, NodeOk, StreamOk, ServiceOk;
    ReceiveOk(a, p.node, p.chan, p.service);
  }

  // ---- Each step keeps the invariant ---------------------------------------

  /** After st at peer i the specification is at b, and b fits the peer and its messages. */
  ghost predicate Fits(a: Spec, b: Spec, p: Peer, st: C.Step)
    requires C.Safe(p, st) && C.Ready(p, st)
  {
    var (q, sent) := C.Act(p, st);
    StepOf(a, b, st.i) && PeerOk(b, st.i, q) && forall m | m in sent :: MessageOk(b, m)
  }

  lemma FitsElection(a: Spec, p: Peer, st: C.Step) returns (b: Spec)
    requires Inv(a) && PeerOk(a, st.i, p) && C.Ready(p, st) && C.Safe(p, st)
    requires C.Delivers(st) ==> MessageOk(a, st.m) && st.m.to == st.i
    requires st.Timeout? || st.DeliverVoteReq? || st.DeliverVoteRep?
    ensures Fits(a, b, p, st)
  {
    hide Inv, PeerOk, MessageOk, StepOf;
    PeerValid(a, st.i, p);
    var q;
    match st
    case Timeout(_) => b, q := StepTimeout(a, st.i, p);
    case DeliverVoteReq(_, m) => var reply; b, q, reply := StepVoteReq(a, st.i, p, m);
    case DeliverVoteRep(_, m) => b, q := StepVoteRep(a, st.i, p, m);
  }

  lemma FitsRestart(a: Spec, p: Peer, st: C.Step) returns (b: Spec)
    requires Inv(a) && PeerOk(a, st.i, p) && C.Ready(p, st) && C.Safe(p, st)
    requires C.Delivers(st) ==> MessageOk(a, st.m) && st.m.to == st.i
    requires st.Reboot? || st.TornTimeout? || st.TornDelivery?
    ensures Fits(a, b, p, st)
  {
    hide Inv, PeerOk, MessageOk, StepOf;
    PeerValid(a, st.i, p);
    match st
    case Reboot(_) => b := StepReboot(a, st.i, p);
    case TornTimeout(_) => b := StepTornTimeout(a, st.i, p);
    case TornDelivery(_, m) => b := StepTornDelivery(a, st.i, p, C.TermOf(m));
  }

  lemma FitsLeader(a: Spec, p: Peer, st: C.Step) returns (b: Spec)
    requires Inv(a) && PeerOk(a, st.i, p) && C.Ready(p, st) && C.Safe(p, st)
    requires C.Delivers(st) ==> MessageOk(a, st.m) && st.m.to == st.i
    requires st.Send? || st.DeliverAppRep? || st.DeliverSnapRep? || st.Start?
    ensures Fits(a, b, p, st)
  {
    hide Inv, PeerOk, MessageOk, StepOf;
    PeerValid(a, st.i, p);
    var q;
    match st
    case Send(_, peer) =>
      b := a;
      StepRefl(a, st.i);
      StepSend(a, st.i, p, peer);
    case DeliverAppRep(_, m) => b, q := StepAppRep(a, st.i, p, m);
    case DeliverSnapRep(_, m) => b, q := StepSnapRep(a, st.i, p, m);
    case Start(_, op) => b, q := StepStart(a, st.i, p, op);
  }

  lemma FitsFollower(a: Spec, p: Peer, st: C.Step) returns (b: Spec)
    requires Inv(a) && PeerOk(a, st.i, p) && C.Ready(p, st) && C.Safe(p, st)
    requires C.Delivers(st) ==> MessageOk(a, st.m) && st.m.to == st.i
    requires st.DeliverAppReq? || st.DeliverSnapReq?
    ensures Fits(a, b, p, st)
  {
    hide Inv, PeerOk, MessageOk, StepOf;
    PeerValid(a, st.i, p);
    var q;
    match st
    case DeliverAppReq(_, m) => var reply; b, q, reply := StepAppReq(a, st.i, p, m);
    case DeliverSnapReq(_, m) => var reply; b, q, reply := StepSnapReq(a, st.i, p, m);
  }

  lemma FitsService(a: Spec, p: Peer, st: C.Step) returns (b: Spec)
    requires Inv(a) && PeerOk(a, st.i, p) && C.Ready(p, st) && C.Safe(p, st)
    requires C.Delivers(st) ==> MessageOk(a, st.m) && st.m.to == st.i
    requires st.TakeMsg? || st.ReceiveMsg? || st.TakeSnapshot? || st.RestoreService?
    ensures Fits(a, b, p, st)
  {
    hide Inv, PeerOk, MessageOk, StepOf;
    PeerValid(a, st.i, p);
    b := a;
    StepRefl(a, st.i);
    var q;
    match st
    case TakeMsg(_) => q := StepTake(a, st.i, p);
    case ReceiveMsg(_) => q := StepReceive(a, st.i, p);
    case TakeSnapshot(_) => b, q := StepSnapshot(a, st.i, p);
    case RestoreService(_) => q := StepRestore(a, st.i, p);
  }

  lemma StepReceive(a: Spec, i: nat, p: Peer) returns (q: Peer)
    requires Inv(a) && PeerOk(a, i, p) && p.service.ready && p.chan.received < |p.chan.sent|
    ensures C.Readable(p.chan.sent[p.chan.received])
    ensures q == p.(chan := p.chan.(received := p.chan.received + 1),
                    service := C.Received(p.service, p.chan.sent[p.chan.received]))
    ensures PeerOk(a, i, q)
  {
    hide Inv, NodeOk, ServiceOk, SavedOk, C.Received;
    ReceiveOk(a, p.node, p.chan, p.service);
    q := p.(chan := p.chan.(received := p.chan.received + 1),
            service := C.Received(p.service, p.chan.sent[p.chan.received]));
  }

  lemma StepRestore(a: Spec, i: nat, p: Peer) returns (q: Peer)
    requires PeerOk(a, i, p) && !p.service.ready
    ensures q == p.(service := Rsm.Restored(p.service, p.node.saved.image))
    ensures PeerOk(a, i, q)
  {
    BaseOf(a, i, p.node, p.tally);
    hide NodeOk, StreamOk, ServiceOk, SavedOk, Rsm.Restored;
    RestoreOk(a, p.node, p.chan, p.service);
    q := p.(service := Rsm.Restored(p.service, p.node.saved.image));
  }

  lemma FitsStep(a: Spec, p: Peer, st: C.Step) returns (b: Spec)
    requires Inv(a) && PeerOk(a, st.i, p) && C.Ready(p, st) && C.Safe(p, st)
    requires C.Delivers(st) ==> MessageOk(a, st.m) && st.m.to == st.i
    ensures Fits(a, b, p, st)
  {
    hide Inv, PeerOk, MessageOk, C.Ready, C.Safe, C.Act, Fits;
    if st.Timeout? || st.DeliverVoteReq? || st.DeliverVoteRep? {
      b := FitsElection(a, p, st);
    } else if st.Reboot? || st.TornTimeout? || st.TornDelivery? {
      b := FitsRestart(a, p, st);
    } else if st.Send? || st.DeliverAppRep? || st.DeliverSnapRep? || st.Start? {
      b := FitsLeader(a, p, st);
    } else if st.DeliverAppReq? || st.DeliverSnapReq? {
      b := FitsFollower(a, p, st);
    } else {
      b := FitsService(a, p, st);
    }
  }

  /** Whatever is enabled is safe to run, and keeps the invariant. */
  lemma EnabledStep(a: Spec, c: C.State, st: C.Step) returns (b: Spec, c': C.State)
    requires ClusterInv(a, c) && C.Enabled(c, st)
    ensures C.Steps(c, st, c')
    ensures ClusterInv(b, c') && Ext(a, b)
  {
    hide Inv, PeerOk, MessageOk, C.Ready, C.Safe, C.Act;
    var p := c.peers[st.i];
    SafeStep(a, st.i, p, st);
    b := FitsStep(a, p, st);
    var (q, sent) := C.Act(p, st);
    c' := C.State(c.peers[st.i := q], c.msgs + sent);
    Rebuild(a, b, c, st.i, q, sent);
  }

  // ---- The start -----------------------------------------------------------

  function Blank(n: nat): Spec {
    Spec(n, seq(n, _ => Fresh()), map[], map[], map[], map[])
  }

  lemma InitPeer(c: C.State, i: nat)
    requires C.Init(c) && i < |c.peers|
    ensures PeerOk(Blank(|c.peers|), i, c.peers[i])
  {
    var a := Blank(|c.peers|);
    assert Suffix([Dummy], 0) == [Dummy];
    assert NodeOk(a, i, c.peers[i].node, {});
  }

  lemma InitInvariant(c: C.State) returns (a: Spec)
    requires C.Init(c)
    ensures ClusterInv(a, c)
  {
    a := Blank(|c.peers|);
    InitInv(a);
    hide Inv, PeerOk;
    forall i | 0 <= i < |c.peers| ensures PeerOk(a, i, c.peers[i]) {
      InitPeer(c, i);
    }
  }
}
