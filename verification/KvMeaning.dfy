/** What the replies of the key/value machine mean, read off the log of requests alone. */
module KvMeaning {
  import opened KvMachine
  import opened KvReplicas

  // ---- Counting in the log -------------------------------------------------

  predicate Same(a: Request, b: Request) {
    a.clientId == b.clientId && a.seqNum == b.seqNum
  }

  /** The request's client and number were answered before. */
  predicate Repeats(log: seq<Request>, req: Request) {
    exists j :: 0 <= j < |log| && Known(log[j]) && Same(log[j], req)
  }

  /** A new Put whose version is the number of Puts accepted on its key before. */
  predicate Accepts(log: seq<Request>, req: Request)
    decreases |log|, 1
  {
    req.command == PUT && !Repeats(log, req) && req.version == Puts(log, req.key)
  }

  /** How many Puts on the key the log has accepted. */
  function Puts(log: seq<Request>, key: string): nat
    decreases |log|, 0
  {
    if log == [] then 0
    else
      var before, last := log[..|log| - 1], log[|log| - 1];
      Puts(before, key) + (if last.key == key && Accepts(before, last) then 1 else 0)
  }

  /** The value of the last Put accepted on the key. */
  function Stored(log: seq<Request>, key: string): string {
    if log == [] then ""
    else
      var before, last := log[..|log| - 1], log[|log| - 1];
      if last.key == key && Accepts(before, last) then last.value else Stored(before, key)
  }

  /** The reply to a request seen for the first time. */
  function NewAnswer(log: seq<Request>, req: Request): Reply
    requires Known(req)
  {
    var n := Puts(log, req.key);
    if req.command == PUT then
      if req.version == n then Reply(PUT, "", n + 1, OK) else Reply(PUT, "", req.version, ErrVersion)
    else if n > 0 then Reply(GET, Stored(log, req.key), n, OK)
    else Reply(GET, "", req.version, ErrNoKey)
  }

  // ---- The machine does just that ------------------------------------------

  lemma {:induction false} RefMeans(log: seq<Request>, key: string)
    ensures var cache := RefRun(log).cache;
            && (key in cache <==> Puts(log, key) > 0)
            && (key in cache ==> cache[key] == Pair(Stored(log, key), Puts(log, key)))
  {
    if log != [] {
      var before, last := log[..|log| - 1], log[|log| - 1];
      RefMeans(before, key);
      RefMeans(before, last.key);
      AnsweredIff(before, last);
    }
  }

  lemma {:induction false} AnsweredIff(log: seq<Request>, req: Request)
    ensures (req.clientId, req.seqNum) in RefRun(log).replies <==> Repeats(log, req)
  {
    if log != [] {
      var n := |log| - 1;
      var before, last := log[..n], log[n];
      AnsweredIff(before, req);
      AnsweredIff(before, last);
      RepeatsNext(before, last, req);
      assert log == before + [last];
      if Repeats(before, last) && Same(last, req) {
        var j :| 0 <= j < |before| && Known(before[j]) && Same(before[j], last);
        assert Same(before[j], req);
      }
    }
  }

  lemma RepeatsNext(log: seq<Request>, last: Request, req: Request)
    ensures Repeats(log + [last], req) <==> Repeats(log, req) || (Known(last) && Same(last, req))
  {
    var all := log + [last];
    if Repeats(log, req) {
      var j :| 0 <= j < |log| && Known(log[j]) && Same(log[j], req);
      assert all[j] == log[j];
    }
    assert all[|log|] == last;
    if Repeats(all, req) {
      var j :| 0 <= j < |all| && Known(all[j]) && Same(all[j], req);
      assert j < |log| ==> log[j] == all[j];
    }
  }

  /**
   * A new Get returns the value of the last accepted Put and how many there
   * were, or ErrNoKey; a new Put is accepted exactly at that version.
   */
  lemma NewReplyMeans(log: seq<Request>, req: Request)
    requires Known(req) && !Repeats(log, req)
    ensures RefOp(RefRun(log), req).1 == NewAnswer(log, req)
  {
    AnsweredIff(log, req);
    RefMeans(log, req.key);
  }

  /** A repeated request gets the reply to its first occurrence. */
  lemma {:induction false} OldReplyMeans(log: seq<Request>, req: Request) returns (j: nat)
    requires Repeats(log, req)
    ensures j < |log| && Known(log[j]) && Same(log[j], req) && !Repeats(log[..j], log[j])
    ensures RefOp(RefRun(log), req).1 == NewAnswer(log[..j], log[j])
  {
    AnsweredIff(log, req);
    j := FirstAnswer(log, req.clientId, req.seqNum);
    FirstIsNew(log, req, j);
  }

  /** FirstAnswer finds the first: earlier ones would have been answered already. */
  lemma FirstIsNew(log: seq<Request>, req: Request, j: nat)
    requires j < |log| && log[j].clientId == req.clientId && log[j].seqNum == req.seqNum
    requires (req.clientId, req.seqNum) !in RefRun(log[..j]).replies && Known(log[j])
    ensures !Repeats(log[..j], log[j]) && RefOp(RefRun(log[..j]), log[j]).1 == NewAnswer(log[..j], log[j])
  {
    AnsweredIff(log[..j], log[j]);
    NewReplyMeans(log[..j], log[j]);
  }

  /**
   * Any replica whose state stands for the log, inside the window: its reply
   * to a new request is the one read off the log.
   */
  lemma ReplicaReplies(s: State, log: seq<Request>, req: Request)
    requires Represents(s, log) && Windowed(log + [req]) && Known(req) && !Repeats(log, req)
    ensures DoOp(s, req).1 == NewAnswer(log, req)
  {
    RepresentsSees(s, log, req);
    NewReplyMeans(log, req);
  }

  /** A request that is neither is refused and leaves no trace. */
  lemma UnknownRefused(s: State, log: seq<Request>, req: Request)
    requires Represents(s, log) && Windowed(log + [req]) && !Known(req) && !Repeats(log, req)
    ensures DoOp(s, req).1 == Reply("", "", 0, ErrWrongLeader) && RefRun(log + [req]) == RefRun(log)
  {
    RepresentsSees(s, log, req);
    AnsweredIff(log, req);
    assert (log + [req])[..|log|] == log;
  }
}
