/**
 * A cluster of Raft peers with their services, over a network that may lose,
 * delay, reorder and repeat messages, with crashes at any moment.
 */
module Cluster {
  import opened Payload
  import opened RaftTypes
  import N = RaftNode
  import Rsm

  /** Requests, and replies together with the request they answer. */
  datatype Message =
    | VoteReq(from: nat, to: nat, vargs: VoteArgs)
    | VoteRep(from: nat, to: nat, vargs: VoteArgs, vreply: VoteReply)
    | AppReq(from: nat, to: nat, aargs: AppendArgs)
    | AppRep(from: nat, to: nat, aargs: AppendArgs, areply: AppendReply)
    | SnapReq(from: nat, to: nat, sargs: SnapArgs)
    | SnapRep(from: nat, to: nat, sargs: SnapArgs, sreply: SnapReply)

  /**
   * The apply channel of one process: the index it starts after, what the
   * applier has taken to send, and how much of that the service has received.
   */
  datatype Chan = Chan(start: nat, sent: seq<ApplyMsg>, received: nat)

  /** One peer: its node, the peers whose vote its election counted, and what is above it. */
  datatype Peer = Peer(node: Node, tally: set<nat>, chan: Chan, service: Rsm.Service)

  /** msgs holds all ever sent: any of them may arrive, any number of times, or not. */
  datatype State = State(peers: seq<Peer>, msgs: set<Message>)

  ghost predicate Init(c: State) {
    && c.msgs == {}
    && forall i | 0 <= i < |c.peers| ::
         c.peers[i] == Peer(N.Make(i, |c.peers|, N.Blank), {}, Chan(0, [], 0), Rsm.Booting)
  }

  datatype Step =
    | Timeout(i: nat)
    | TornTimeout(i: nat)
    | TornDelivery(i: nat, m: Message)
    | DeliverVoteReq(i: nat, m: Message)
    | DeliverVoteRep(i: nat, m: Message)
    | Send(i: nat, peer: nat)
    | DeliverAppReq(i: nat, m: Message)
    | DeliverAppRep(i: nat, m: Message)
    | DeliverSnapReq(i: nat, m: Message)
    | DeliverSnapRep(i: nat, m: Message)
    | Start(i: nat, op: Op)
    | TakeMsg(i: nat)
    | ReceiveMsg(i: nat)
    | TakeSnapshot(i: nat)
    | Reboot(i: nat)
    | RestoreService(i: nat)

  // ---- What one peer does --------------------------------------------------

  /** A process starts over from what is saved: empty channel, service booting. */
  function FreshPeer(n: Node, tally: set<nat>): Peer
    requires |n.saved.logs| >= 1
  {
    Peer(N.Reboot(n), tally, Chan(n.saved.logs[0].index, [], 0), Rsm.Booting)
  }

  function SendTo(n: Node, peer: nat): Message
    requires N.Valid(n) && peer < n.peers
  {
    if N.Behind(n, peer)
    then SnapReq(n.me, peer, N.MakeInstallSnapShotArgs(n))
    else AppReq(n.me, peer, N.GenAppendEntryArgs(n, n.nextIndex[peer] - 1))
  }

  function VoteRequests(n: Node): set<Message>
    requires |n.logs| >= 1
  {
    set p: nat | p < n.peers && p != n.me :: VoteReq(n.me, p, N.MakeVoteArgs(n))
  }

  function TermOf(m: Message): nat {
    match m
    case VoteReq(_, _, a) => a.term
    case VoteRep(_, _, a, _) => a.term
    case AppReq(_, _, a) => a.term
    case AppRep(_, _, a, _) => a.term
    case SnapReq(_, _, a) => a.term
    case SnapRep(_, _, a, _) => a.term
  }

  /** The service can decode the message. */
  predicate Readable(msg: ApplyMsg) {
    match msg
    case CommandMsg(_, command) => Rsm.IsOp(command)
    case SnapshotMsg(index, _, image) => image.Some? && image.value.index == index
  }

  function Received(s: Rsm.Service, msg: ApplyMsg): Rsm.Service
    requires Readable(msg)
  {
    match msg
    case CommandMsg(index, command) => Rsm.ApplyCommand(s, index, command)
    case SnapshotMsg(index, _, image) => Rsm.ApplySnapshot(s, index, image.value)
  }

  /** What the handler of this step needs so that every access is in range. */
  ghost predicate Safe(p: Peer, st: Step) {
    && N.Valid(p.node) && |p.node.saved.logs| >= 1
    && match st
       case DeliverAppReq(_, m) => m.AppReq? ==> N.Numbered(m.aargs)
       case DeliverAppRep(_, m) =>
         m.AppRep? ==>
           && m.from < p.node.peers
           && (N.Leads(p.node, m.aargs.term) ==> m.aargs.prevLogIndex <= N.Last(p.node).index)
       case DeliverSnapRep(_, m) => m.from < p.node.peers
       case ReceiveMsg(_) =>
         |p.chan.sent| > p.chan.received ==> Readable(p.chan.sent[p.chan.received])
       case _ => true
  }

  /** May this step happen at p?  Handlers are the locked sections, run atomically. */
  ghost predicate Ready(p: Peer, st: Step) {
    var n := p.node;
    match st
    case TornDelivery(_, m) => (m.VoteReq? || m.AppReq?) && TermOf(m) > n.currentTerm
    case DeliverVoteReq(_, m) => m.VoteReq?
    // one call to a peer returns at most one reply
    case DeliverVoteRep(_, m) =>
      m.VoteRep? && (n.state == Candidate && n.currentTerm == m.vargs.term ==> m.from !in p.tally)
    case Send(i, peer) => n.state == Leader && peer < n.peers && peer != i
    case DeliverAppReq(_, m) => m.AppReq?
    case DeliverAppRep(_, m) => m.AppRep?
    case DeliverSnapReq(_, m) => m.SnapReq?
    case DeliverSnapRep(_, m) => m.SnapRep?
    // the applier sends one message at a time
    case TakeMsg(_) => p.chan.received == |p.chan.sent|
    case ReceiveMsg(_) => p.service.ready && p.chan.received < |p.chan.sent|
    case TakeSnapshot(_) => p.service.ready
    case RestoreService(_) => !p.service.ready
    case _ => true
  }

  /** The peer after the step, and the messages it sent. */
  function Act(p: Peer, st: Step): (Peer, set<Message>)
    requires Safe(p, st) && Ready(p, st)
  {
    var i, n := st.i, p.node;
    match st
    case Timeout(_) =>
      var m := N.LaunchElection(n);
      (p.(node := m, tally := {i}), VoteRequests(m))
    case TornTimeout(_) =>
      (FreshPeer(N.NewTerm(n), p.tally), {})
    case TornDelivery(_, m) =>
      (FreshPeer(N.UpdateTermAndStepDown(n, TermOf(m)), p.tally), {})
    case DeliverVoteReq(_, m) =>
      var (n', reply) := N.RequestVote(n, m.vargs);
      (p.(node := n'), {VoteRep(i, m.from, m.vargs, reply)})
    case DeliverVoteRep(_, m) =>
      (p.(node := N.HandleVoteReply(n, m.vargs, m.vreply),
          tally := if m.vreply.granted && n.state == Candidate && n.currentTerm == m.vargs.term
                   then p.tally + {m.from} else p.tally), {})
    case Send(_, peer) =>
      (p, {SendTo(n, peer)})
    case DeliverAppReq(_, m) =>
      var (n', reply) := N.AppendEntry(n, m.aargs);
      (p.(node := n'), {AppRep(i, m.from, m.aargs, reply)})
    case DeliverAppRep(_, m) =>
      (p.(node := N.HandleAppendReply(n, m.from, m.aargs, m.areply)), {})
    case DeliverSnapReq(_, m) =>
      var (n', reply) := N.InstallSnapShot(n, m.sargs);
      (p.(node := n'), {SnapRep(i, m.from, m.sargs, reply)})
    case DeliverSnapRep(_, m) =>
      (p.(node := N.HandleSnapReply(n, m.from, m.sargs, m.sreply)), {})
    case Start(_, op) =>
      (p.(node := N.Start(n, Cmd(op)).0), {})
    case TakeMsg(_) =>
      var (n', msg) := N.Take(n);
      (p.(node := n', chan := if msg.Some? then p.chan.(sent := p.chan.sent + [msg.value]) else p.chan), {})
    case ReceiveMsg(_) =>
      (p.(chan := p.chan.(received := p.chan.received + 1),
          service := Received(p.service, p.chan.sent[p.chan.received])), {})
    case TakeSnapshot(_) =>
      (p.(node := N.Snapshot(n, p.service.lastApplied, Rsm.CreateSnapshot(p.service))), {})
    case Reboot(_) =>
      (FreshPeer(n, p.tally), {})
    case RestoreService(_) =>
      (p.(service := Rsm.Restored(p.service, n.saved.image)), {})
  }

  // ---- Runs ----------------------------------------------------------------

  predicate Delivers(st: Step) {
    || st.TornDelivery? || st.DeliverVoteReq? || st.DeliverVoteRep? || st.DeliverAppReq?
    || st.DeliverAppRep? || st.DeliverSnapReq? || st.DeliverSnapRep?
  }

  /** The step's peer may take it, and a delivered message was sent to that peer. */
  ghost predicate Enabled(c: State, st: Step) {
    && st.i < |c.peers| && Ready(c.peers[st.i], st)
    && (Delivers(st) ==> st.m in c.msgs && st.m.to == st.i)
  }

  ghost predicate Steps(c: State, st: Step, c': State) {
    && Enabled(c, st) && Safe(c.peers[st.i], st)
    && var (p, sent) := Act(c.peers[st.i], st);
       c' == State(c.peers[st.i := p], c.msgs + sent)
  }

  ghost predicate Next(c: State, c': State) {
    exists st :: Steps(c, st, c')
  }

  /** A finite run from the start; every prefix of an execution is one. */
  ghost predicate IsRun(cs: seq<State>) {
    && |cs| >= 1 && Init(cs[0])
    && forall k | 0 <= k < |cs| - 1 :: Next(cs[k], cs[k + 1])
  }
}
