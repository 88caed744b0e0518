/** The kvsrv server and its clerk as objects, updated in place. */
module KvsrvObjects {
  import opened Payload
  import opened KvMachine
  import opened VersionedKv
  import opened KvRuns
  import opened LockRuns

  class KVServer {
    var cache: Cache
    var clientMap: map<int, Dup>

    function Value(): Server
      reads this
    {
      Server(cache, clientMap)
    }

    constructor ()
      ensures Value() == Server(map[], map[])
    {
      cache, clientMap := map[], map[];
    }

    method Get(a: GetArgs) returns (reply: Answer)
      modifies this
      ensures (Value(), reply) == VersionedKv.Get(old(Value()), a)
    {
      if a.clientId in clientMap {
        var dup := clientMap[a.clientId];
        if a.seqNum == dup.lastSeqNum && dup.lastGet.Some? {
          return dup.lastGet.value;
        }
      }
      if a.key in cache {
        reply := Answer(cache[a.key].value, cache[a.key].version, OK);
      } else {
        reply := Answer("", 0, ErrNoKey);
      }
      clientMap := clientMap[a.clientId := Dup(a.seqNum, Some(reply), None)];
    }

    method Put(a: PutArgs) returns (err: Err)
      modifies this
      ensures (Value(), err) == VersionedKv.Put(old(Value()), a)
    {
      if a.clientId in clientMap {
        var dup := clientMap[a.clientId];
        if a.seqNum == dup.lastSeqNum && dup.lastPut == Some(OK) {
          if a.key in cache {
            if a.version == cache[a.key].version { return dup.lastPut.value; }
          } else if a.version == 0 {
            return dup.lastPut.value;
          }
        }
      }
      if a.key in cache {
        if a.version == cache[a.key].version {
          cache := cache[a.key := Pair(a.value, cache[a.key].version + 1)];
          clientMap := clientMap[a.clientId := Dup(a.seqNum, None, Some(OK))];
          err := OK;
        } else {
          err := ErrVersion;
        }
      } else if a.version == 0 {
        cache := cache[a.key := Pair(a.value, 1)];
        clientMap := clientMap[a.clientId := Dup(a.seqNum, None, Some(OK))];
        err := OK;
      } else {
        err := ErrNoKey;
      }
    }
  }

  class Clerk {
    const clientId: int
    var seqNum: int

    constructor (id: int)
      ensures clientId == id && seqNum == 0
    {
      clientId, seqNum := id, 0;
    }

    method Get(calls: seq<Option<Answer>>) returns (answer: Option<Answer>)
      modifies this
      ensures seqNum == old(seqNum) + 1
      ensures var k := FirstAnswered(calls);
              answer == if k == |calls| then None else calls[k]
    {
      seqNum := seqNum + 1;
      var attempt := 0;
      answer := None;
      while attempt < |calls| && answer.None?
        invariant attempt <= |calls|
        invariant answer.None? ==> forall i | 0 <= i < attempt :: calls[i].None?
        invariant answer.Some? ==>
                    && attempt >= 1 && answer == calls[attempt - 1]
                    && (forall i | 0 <= i < attempt - 1 :: calls[i].None?)
      {
        answer := calls[attempt];
        attempt := attempt + 1;
      }
    }

    /**
     * `calls` is what became of each attempt: an answer, or None when the
     * call failed.  None is returned while every attempt so far has failed.
     */
    method Put(calls: seq<Option<Err>>) returns (err: Option<Err>)
      modifies this
      ensures seqNum == old(seqNum) + 1
      ensures var k := FirstAnswered(calls);
              err == if k == |calls| then None else Some(Verdict(k, calls[k].value))
    {
      seqNum := seqNum + 1;
      var attempt, firstAttempt := 0, true;
      err := None;
      while attempt < |calls| && err.None?
        invariant attempt <= |calls| && firstAttempt == (attempt == 0)
        invariant err.None? ==> forall i | 0 <= i < attempt :: calls[i].None?
        invariant err.Some? ==>
                    && attempt >= 1 && calls[attempt - 1].Some?
                    && (forall i | 0 <= i < attempt - 1 :: calls[i].None?)
                    && err.value == Verdict(attempt - 1, calls[attempt - 1].value)
      {
        if calls[attempt].Some? {
          var e := calls[attempt].value;
          if e == ErrVersion && !firstAttempt { e := ErrMaybe; }
          err := Some(e);
        }
        firstAttempt := false;
        attempt := attempt + 1;
      }
    }
  }

  class Lock {
    const key: string
    const clientID: string

    constructor (l: string, id: string)
      ensures key == l && clientID == id
    {
      key, clientID := l, id;
    }

    /**
     * `answers` is what the clerk's calls returned, in order.  The asks made
     * and whether the lock was acquired follow the lock's control.
     */
    method Acquire(answers: seq<Answer>) returns (asks: seq<Ask>, acquired: bool)
      ensures var (end, more) := Drive(AcqGet, key, clientID, answers);
              asks == [GetAsk(key)] + more && acquired == (end == Held)
    {
      var n, more := 0, [];
      acquired := false;
      ghost var at := AcqGet;
      Begins(at, key, clientID, answers);
      while n < |answers| && !acquired
        invariant n <= |answers| && Along(AcqGet, key, clientID, answers, n, at, more)
        invariant at == if acquired then Held else if n < |answers| then AcqGet else at
        invariant at != Held || acquired
      {
        var got := answers[n];
        assert more + [] == more;
        OneMore(AcqGet, key, clientID, answers, n, at, more);
        at := Next(at, key, clientID, got).0;
        n := n + 1;
        if got.err == ErrNoKey || (got.err == OK && got.value != clientID && got.value == "") {
          more := more + [PutAsk(key, clientID, if got.err == ErrNoKey then 0 else got.version)];
          if n < |answers| {
            assert more + [] == more;
            OneMore(AcqGet, key, clientID, answers, n, at, more);
            at := Next(at, key, clientID, answers[n]).0;
            n := n + 1;
            if answers[n - 1].err == OK {
              acquired := true;
            } else {
              more := more + [GetAsk(key)];
            }
          }
        } else if got.err == OK && got.value == clientID {
          acquired := true;
        } else {
          more := more + [GetAsk(key)];
        }
      }
      Stops(AcqGet, key, clientID, answers, n, at, more);
      asks := [GetAsk(key)] + more;
    }

    method Release(answers: seq<Answer>) returns (asks: seq<Ask>, released: bool)
      ensures var (end, more) := Drive(RelGet, key, clientID, answers);
              asks == [GetAsk(key)] + more && released == (end == Idle)
    {
      var n, more := 0, [];
      released := false;
      ghost var at := RelGet;
      Begins(at, key, clientID, answers);
      while n < |answers| && !released
        invariant n <= |answers| && Along(RelGet, key, clientID, answers, n, at, more)
        invariant at == if released then Idle else if n < |answers| then RelGet else at
        invariant at != Idle || released
      {
        var got := answers[n];
        assert more + [] == more;
        OneMore(RelGet, key, clientID, answers, n, at, more);
        at := Next(at, key, clientID, got).0;
        n := n + 1;
        if got.err == ErrNoKey || (got.err == OK && got.value != clientID) {
          released := true;
        } else if got.err == OK {
          more := more + [PutAsk(key, "", got.version)];
          if n < |answers| {
            assert more + [] == more;
            OneMore(RelGet, key, clientID, answers, n, at, more);
            at := Next(at, key, clientID, answers[n]).0;
            n := n + 1;
            if answers[n - 1].err == OK {
              released := true;
            } else {
              more := more + [GetAsk(key)];
            }
          }
        } else {
          more := more + [GetAsk(key)];
        }
      }
      Stops(RelGet, key, clientID, answers, n, at, more);
      asks := [GetAsk(key)] + more;
    }
  }
}
