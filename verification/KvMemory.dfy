/** How far back a replica remembers as long as it is not restored: a hundred numbers. */
module KvMemory {
  import opened KvMachine

  /** The state of a replica that has only executed requests. */
  function Performed(log: seq<Request>): State {
    if log == [] then Empty else DoOp(Performed(log[..|log| - 1]), log[|log| - 1]).0
  }

  /** Every reply within a hundred of the client's highest number is kept, and none is made up. */
  ghost predicate Keeps(d: DupTab, u: Ref, c: int) {
    && c in u.highest && d.maxSeqNum == u.highest[c]
    && (forall q | q in d.replies :: (c, q) in u.replies && d.replies[q] == u.replies[(c, q)])
    && (forall q | (c, q) in u.replies && q >= d.maxSeqNum - 100 :: q in d.replies)
  }

  ghost predicate KeepsAll(s: State, u: Ref) {
    && s.cache == u.cache && s.clients.Keys == u.highest.Keys
    && (forall c | c in s.clients :: Keeps(s.clients[c], u, c))
    && (forall c, q | (c, q) in u.replies :: c in u.highest)
  }

  /** A repeated number is within a hundred of the client's highest. */
  predicate Near(u: Ref, req: Request) {
    (req.clientId, req.seqNum) in u.replies && req.clientId in u.highest ==>
      req.seqNum >= u.highest[req.clientId] - 100
  }

  predicate AllNear(log: seq<Request>) {
    log == [] || (AllNear(log[..|log| - 1]) && Near(RefRun(log[..|log| - 1]), log[|log| - 1]))
  }

  lemma RecordKeeps(d: DupTab, u: Ref, c: int, req: Request)
    requires Keeps(d, u, c) && c == req.clientId && Fresh(u, req)
    ensures Keeps(Record(d, req.seqNum, FreshReply(u.cache, req)), RefOp(u, req).0, c)
  {
  }

  lemma DoOpKeeps(s: State, u: Ref, req: Request)
    requires KeepsAll(s, u) && Near(u, req)
    ensures DoOp(s, req).1 == RefOp(u, req).1 && KeepsAll(DoOp(s, req).0, RefOp(u, req).0)
  {
    var c := req.clientId;
    if c in s.clients { assert Keeps(s.clients[c], u, c); }
    if (c, req.seqNum) in u.replies {
      assert Seen(s, req);
    } else if Fresh(u, req) {
      var s', u' := DoOp(s, req).0, RefOp(u, req).0;
      if c in s.clients { RecordKeeps(s.clients[c], u, c, req); }
      forall k | k in s'.clients ensures Keeps(s'.clients[k], u', k) {
        if k != c { assert Keeps(s.clients[k], u, k); }
      }
    }
  }

  /** Without a restore the window is a hundred numbers wide, for every log. */
  lemma {:induction false} UnrestoredIsUnbounded(log: seq<Request>)
    requires AllNear(log)
    ensures KeepsAll(Performed(log), RefRun(log))
  {
    hide DoOp, RefOp, KeepsAll, Near;
    if log == [] {
      NothingKept();
    } else {
      UnrestoredIsUnbounded(log[..|log| - 1]);
      DoOpKeeps(Performed(log[..|log| - 1]), RefRun(log[..|log| - 1]), log[|log| - 1]);
    }
  }

  lemma NothingKept()
    ensures KeepsAll(Empty, RefEmpty)
  {
  }

  /** Right after a new highest number, exactly the replies within a hundred of it are known. */
  lemma KnownAfterHighest(s: State, u: Ref, req: Request, q: int)
    requires KeepsAll(s, u) && Fresh(u, req) && Near(u, req)
    requires req.clientId in u.highest ==> req.seqNum > u.highest[req.clientId]
    ensures var s', u' := DoOp(s, req).0, RefOp(u, req).0;
            Seen(s', req.(seqNum := q)) <==> (req.clientId, q) in u'.replies && q >= req.seqNum - 100
  {
    DoOpKeeps(s, u, req);
    var c := req.clientId;
    if c in s.clients { assert Keeps(s.clients[c], u, c); }
    assert Keeps(DoOp(s, req).0.clients[c], RefOp(u, req).0, c);
  }
}
