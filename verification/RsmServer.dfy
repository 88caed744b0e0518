/** The RSM object: submitted operations waiting for their results. */
module RsmServer {
  import opened Payload
  import KvMachine
  import R = Rsm

  /** A submission and what Start returned for it; `done` is a channel with room for one verdict. */
  class PendingOp {
    const op: Op
    const index: nat
    ghost const term: nat
    var result: Option<KvMachine.Reply>
    var done: Option<bool>

    constructor (op: Op, index: nat, ghost term: nat)
      ensures this.op == op && this.index == index && this.term == term && done.None? && result.None?
    {
      this.op, this.index, this.term, result, done := op, index, term, None, None;
    }

    /** A send that gives up when the channel is full. */
    method Signal(verdict: bool)
      modifies `done
      ensures done == if old(done).None? then Some(verdict) else old(done)
    {
      if done.None? { done := Some(verdict); }
    }
  }

  /** What was executed at an index, the term of its entry, and the machine's reply. */
  datatype Executed = Executed(op: Op, term: nat, reply: KvMachine.Reply)

  /** The test on a committed operation: the pending one's server, not the committed one's. */
  predicate Matches(me: int, pending: Op, committed: Op) {
    pending.id == committed.id && pending.me == me
  }

  /** e is the entry with this operation and term. */
  predicate IsEntry(op: Op, term: nat, e: Executed) {
    e.op == op && e.term == term
  }

  /** At one index, one term means one operation. */
  predicate OneEntry(op: Op, term: nat, e: Executed) {
    e.term == term ==> e.op == op
  }

  // ---- The counter for ids -------------------------------------------------

  /** An id is given out, or a snapshot sets the counter. */
  datatype Tick = Give | Set(to: int)

  function Counter(start: int, ticks: seq<Tick>): int {
    if ticks == [] then start
    else
      match ticks[|ticks| - 1]
      case Give => Counter(start, ticks[..|ticks| - 1]) + 1
      case Set(to) => to
  }

  /** The ids given out. */
  function Given(start: int, ticks: seq<Tick>): set<int> {
    if ticks == [] then {}
    else
      var before := ticks[..|ticks| - 1];
      Given(start, before) + (if ticks[|ticks| - 1] == Give then {Counter(start, before) + 1} else {})
  }

  class RSM {
    const me: int
    var opId: int
    var lastApplied: nat
    var sm: KvMachine.State
    var pendingOps: map<nat, PendingOp>
    ghost var executed: map<nat, Executed>
    ghost var waiting: set<PendingOp>
    ghost var first: int            // the counter when this process started
    ghost var ticks: seq<Tick>      // what it has been through since

    function Service(): R.Service
      reads this
    {
      R.Service(true, opId, lastApplied, sm)
    }

    /** A verdict of true stands for an execution at that index under that id. */
    ghost predicate Valid()
      reads this, waiting
    {
      && (forall i | i in pendingOps :: pendingOps[i] in waiting && pendingOps[i].index == i)
      && (forall i | i in executed :: i <= lastApplied)
      && (forall p | p in waiting :: p.op.me == me)
      && (forall p | p in waiting && p.done == Some(true) :: Answered(p))
      && (forall p | p in waiting && p.index in executed :: OneEntry(p.op, p.term, executed[p.index]))
      && opId == Counter(first, ticks)
    }

    ghost predicate Answered(p: PendingOp)
      reads this, p
    {
      && p.index in executed && executed[p.index].op.id == p.op.id
      && p.result == Some(executed[p.index].reply)
    }

    /** The end of MakeRSM. */
    constructor (me: int, image: Option<Image>)
      ensures Valid() && this.me == me && waiting == {} && executed == map[] && ticks == []
      ensures Service() == R.Restored(R.Booting, image)
    {
      this.me, pendingOps, executed, waiting := me, map[], map[], {};
      opId, lastApplied, sm := 0, 0, KvMachine.Empty;
      if image.Some? {
        opId, lastApplied, sm := image.value.opId, image.value.index, KvMachine.Restore(image.value.sm);
      }
      first, ticks := if image.Some? then image.value.opId else 0, [];
    }

    /** The operation handed to Raft. */
    method NextOp(req: KvMachine.Request) returns (op: Op)
      requires Valid()
      modifies `opId, `ticks
      ensures Valid() && opId == old(opId) + 1 && op == Op(me, opId, req) && ticks == old(ticks) + [Give]
    {
      opId := opId + 1;
      ticks := ticks + [Give];
      op := Op(me, opId, req);
    }

    /**
     * Raft took the operation at this index and term: wait for it, and dismiss
     * who waited before.  The entry may have been applied already; Raft has one
     * entry for an index and term (Submissions.StartedEntry).
     */
    method Register(op: Op, index: nat, ghost term: nat) returns (p: PendingOp)
      requires Valid() && op.me == me
      requires index in executed ==> OneEntry(op, term, executed[index])
      modifies this, waiting
      ensures Valid() && fresh(p) && p.op == op && p.index == index && p.term == term && p.done.None?
      ensures waiting == old(waiting) + {p} && pendingOps == old(pendingOps)[index := p]
      ensures executed == old(executed) && Service() == old(Service()) && ticks == old(ticks)
      ensures forall w | w in old(waiting) && w.done != old(w.done) :: w.done == Some(false)
    {
      p := new PendingOp(op, index, term);
      if index in pendingOps {
        pendingOps[index].Signal(false);
      }
      pendingOps := pendingOps[index := p];
      waiting := waiting + {p};
    }

    method Forget(index: nat)
      requires Valid()
      modifies `pendingOps
      ensures Valid() && pendingOps == old(pendingOps) - {index}
    {
      pendingOps := pendingOps - {index};
    }

    /**
     * What Submit returns once a verdict is in.  OK stands for an execution at
     * the same index and under the same id; that was the entry Start appended
     * for this submission exactly when it has the term Start returned.
     */
    method Outcome(p: PendingOp) returns (err: KvMachine.Err, reply: Option<KvMachine.Reply>)
      requires Valid() && p in waiting && p.done.Some?
      ensures err == KvMachine.OK <==> p.done.value
      ensures err == KvMachine.OK ==>
                && p.index in executed && executed[p.index].op.id == p.op.id
                && reply == Some(executed[p.index].reply)
                && (IsEntry(p.op, p.term, executed[p.index]) <==> executed[p.index].term == p.term)
      ensures err != KvMachine.OK ==> err == KvMachine.ErrWrongLeader && reply.None?
    {
      if p.done.value { return KvMachine.OK, p.result; }
      return KvMachine.ErrWrongLeader, None;
    }

    method ApplyCommand(index: nat, command: Command, ghost term: nat)
      requires Valid() && R.IsOp(command)
      requires forall p | p in waiting && p.index == index && p.term == term :: p.op == command.op
      modifies this, waiting
      ensures Valid() && waiting == old(waiting) && pendingOps == old(pendingOps)
      ensures Service() == R.ApplyCommand(old(Service()), index, command)
      ensures executed == if index <= old(lastApplied) then old(executed)
                          else old(executed)[index :=
                            Executed(command.op, term, KvMachine.DoOp(old(sm), command.op.req).1)]
      ensures index > old(lastApplied) && index in pendingOps && old(pendingOps[index].done).None? ==>
                pendingOps[index].done == Some(Matches(me, pendingOps[index].op, command.op))
    {
      hide KvMachine.DoOp;
      if index <= lastApplied { return; }
      var op := command.op;
      var (next, result) := KvMachine.DoOp(sm, op.req);
      sm, lastApplied := next, index;
      executed := executed[index := Executed(op, term, result)];
      if index in pendingOps { Judge(pendingOps[index], op, result); }
    }

    /** The verdict for whoever waits where op was executed. */
    method Judge(p: PendingOp, op: Op, result: KvMachine.Reply)
      requires Valid() && p in waiting && p.done != Some(true)
      requires p.index in executed && executed[p.index].op == op && executed[p.index].reply == result
      modifies p`result, p`done
      ensures Valid()
      ensures p.done == if old(p.done).None? then Some(Matches(me, p.op, op)) else old(p.done)
    {
      if Matches(me, p.op, op) {
        p.result := Some(result);
        p.Signal(true);
      } else {
        p.Signal(false);
      }
    }

    method ApplySnapshot(index: nat, image: Image)
      requires Valid() && image.index == index
      modifies this, waiting
      ensures Valid() && waiting == old(waiting) && pendingOps == old(pendingOps)
      ensures Service() == R.ApplySnapshot(old(Service()), index, image)
      ensures executed == old(executed)
      ensures ticks == if index <= old(lastApplied) then old(ticks) else old(ticks) + [Set(image.opId)]
      ensures forall i | i in pendingOps ::
                pendingOps[i].done ==
                  if index > old(lastApplied) && i <= index && old(pendingOps[i].done).None? then Some(false)
                  else old(pendingOps[i].done)
    {
      if index <= lastApplied { return; }
      opId, lastApplied, sm := image.opId, index, KvMachine.Restore(image.sm);
      ticks := ticks + [Set(image.opId)];
      Dismiss(index);
    }

    /** Everyone waiting at or below the index is told no. */
    method Dismiss(index: nat)
      requires Valid()
      modifies waiting`done
      ensures Valid()
      ensures forall i | i in pendingOps ::
                pendingOps[i].done == if i <= index && old(pendingOps[i].done).None? then Some(false)
                                      else old(pendingOps[i].done)
    {
      var todo := pendingOps.Keys;
      while todo != {}
        invariant todo <= pendingOps.Keys && Valid()
        invariant forall i | i in pendingOps ::
                    pendingOps[i].done ==
                      if i !in todo && i <= index && old(pendingOps[i].done).None? then Some(false)
                      else old(pendingOps[i].done)
        decreases |todo|
      {
        assert (forall x :: x !in todo) ==> todo == {};
        var i :| i in todo;
        if i <= index { pendingOps[i].Signal(false); }
        todo := todo - {i};
      }
    }

    /** A snapshot is for lastApplied, and skipped if that is below the asked index. */
    method CreateSnapshot(index: nat) returns (image: Option<Image>)
      requires Valid()
      ensures image == if lastApplied < index then None else Some(R.CreateSnapshot(Service()))
    {
      if lastApplied < index { return None; }
      image := Some(Image(opId, lastApplied, KvMachine.Snapshot(sm)));
    }
  }

  // ---- Ids given out twice -------------------------------------------------

  /** Without snapshots the ids are those from the start to the counter. */
  lemma {:induction false} GivenSoFar(start: int, ticks: seq<Tick>)
    requires forall i | 0 <= i < |ticks| :: ticks[i] == Give
    ensures Counter(start, ticks) == start + |ticks|
    ensures forall id :: id in Given(start, ticks) <==> start < id <= Counter(start, ticks)
  {
    if ticks != [] { GivenSoFar(start, ticks[..|ticks| - 1]); }
  }

  /** A first snapshot makes the next id an old one exactly when it sets the counter back to an id or the start. */
  lemma RepeatsIff(start: int, ticks: seq<Tick>, to: int)
    requires forall i | 0 <= i < |ticks| :: ticks[i] == Give
    ensures Counter(start, ticks + [Set(to)]) + 1 in Given(start, ticks + [Set(to)]) <==>
            start <= to < Counter(start, ticks)
  {
    GivenSoFar(start, ticks);
    assert (ticks + [Set(to)])[..|ticks|] == ticks;
  }

  /** No snapshot so far set the counter back. */
  predicate Forward(start: int, ticks: seq<Tick>) {
    ticks == [] ||
    var before := ticks[..|ticks| - 1];
    Forward(start, before) && (ticks[|ticks| - 1].Set? ==> ticks[|ticks| - 1].to >= Counter(start, before))
  }

  /** As long as none does, every id is new. */
  lemma {:induction false} ForwardIsFresh(start: int, ticks: seq<Tick>)
    requires Forward(start, ticks)
    ensures forall id | id in Given(start, ticks) :: id <= Counter(start, ticks)
  {
    if ticks != [] { ForwardIsFresh(start, ticks[..|ticks| - 1]); }
  }

  // ---- Replies to someone else ---------------------------------------------

  const Mine := KvMachine.Request(KvMachine.PUT, "k", "v", 1, 8, 0)
  const Theirs := KvMachine.Request(KvMachine.GET, "k", "", 1, 7, 0)

  lemma DifferentReplies()
    ensures KvMachine.DoOp(KvMachine.Empty, Theirs).1 != KvMachine.DoOp(KvMachine.Empty, Mine).1
  {
  }

  /** Another server's operation with the same id is committed at the index: OK, with its reply. */
  method ForeignReply() returns (mine: Op, committed: Op, err: KvMachine.Err, reply: Option<KvMachine.Reply>)
    ensures mine.req == Mine && committed.req == Theirs && committed.me != mine.me
    ensures err == KvMachine.OK && reply == Some(KvMachine.DoOp(KvMachine.Empty, Theirs).1)
    ensures reply.value != KvMachine.DoOp(KvMachine.Empty, Mine).1
  {
    DifferentReplies();
    hide KvMachine.DoOp;
    var rsm := new RSM(0, None);
    mine := rsm.NextOp(Mine);
    var p := rsm.Register(mine, 1, 1);
    committed := Op(1, mine.id, Theirs);
    rsm.ApplyCommand(1, Cmd(committed), 2);
    err, reply := rsm.Outcome(p);
  }

  /** So is an earlier operation of the same server whose id was given out again. */
  method ReusedId() returns (mine: Op, committed: Op, err: KvMachine.Err, reply: Option<KvMachine.Reply>)
    ensures mine.req == Mine && committed.req == Theirs && committed.me == mine.me && committed.id == mine.id
    ensures err == KvMachine.OK && reply == Some(KvMachine.DoOp(KvMachine.Empty, Theirs).1)
    ensures reply.value != KvMachine.DoOp(KvMachine.Empty, Mine).1
  {
    DifferentReplies();
    hide KvMachine.DoOp;
    var rsm := new RSM(0, None);
    committed := rsm.NextOp(Theirs);
    rsm.ApplySnapshot(1, Image(0, 1, KvMachine.Empty));
    mine := rsm.NextOp(Mine);
    var p := rsm.Register(mine, 2, 3);
    rsm.ApplyCommand(2, Cmd(committed), 1);
    err, reply := rsm.Outcome(p);
  }
}
