/** The kvraft server object: the machine of KvMachine updated in place. */
module KvServer {
  import opened KvMachine

  class KVServer {
    var cache: Cache
    var clientMap: Clients

    function Value(): State
      reads this
    {
      State(cache, clientMap)
    }

    constructor ()
      ensures Value() == Empty
    {
      cache, clientMap := map[], map[];
    }

    /** Drop replies more than 100 below the highest number, in any order. */
    method Collect(replies: map<int, Reply>, highest: int) returns (kept: map<int, Reply>)
      ensures kept == map q | q in replies && q >= highest - 100 :: replies[q]
    {
      kept := replies;
      var todo := replies.Keys;
      while todo != {}
        invariant todo <= replies.Keys
        invariant kept ==
          map q | q in replies && (q in todo || q >= highest - 100) :: replies[q]
        decreases |todo|
      {
        assert (forall q :: q !in todo) ==> todo == {};
        var q :| q in todo;
        if q < highest - 100 {
          kept := kept - {q};
        }
        todo := todo - {q};
      }
    }

    method DoOp(req: Request) returns (reply: Reply)
      modifies this
      ensures (Value(), reply) == KvMachine.DoOp(old(Value()), req)
    {
      if req.clientId in clientMap {
        if req.seqNum in clientMap[req.clientId].replies {
          return clientMap[req.clientId].replies[req.seqNum];
        }
      }
      reply := Reply(req.command, "", req.version, OK);
      if req.command == GET {
        if req.key in cache {
          var pair := cache[req.key];
          reply := reply.(value := pair.value, version := pair.version, err := OK);
        } else {
          reply := reply.(err := ErrNoKey);
        }
      } else if req.command == PUT {
        if req.key in cache {
          var pair := cache[req.key];
          if pair.version == req.version {
            cache := cache[req.key := Pair(req.value, pair.version + 1)];
            reply := reply.(version := pair.version + 1, err := OK);
          } else {
            reply := reply.(err := ErrVersion);
          }
        } else if req.version == 0 {
          cache := cache[req.key := Pair(req.value, 1)];
          reply := reply.(version := 1, err := OK);
        } else {
          reply := reply.(err := ErrVersion);
        }
      } else {
        return Refusal;
      }
      if req.clientId in clientMap {
        var dup := clientMap[req.clientId];
        var replies := dup.replies[req.seqNum := reply];
        var highest := dup.maxSeqNum;
        if req.seqNum > highest {
          highest := req.seqNum;
          replies := Collect(replies, highest);
        }
        clientMap := clientMap[req.clientId := DupTab(replies, highest)];
      } else {
        clientMap := clientMap[req.clientId := DupTab(map[req.seqNum := reply], req.seqNum)];
      }
    }

    /** The replies to the last ten numbers, gathered one number at a time. */
    method RecentReplies(dup: DupTab) returns (recent: map<int, Reply>)
      ensures DupTab(recent, dup.maxSeqNum) == Recent(dup)
    {
      recent := map[];
      if dup.maxSeqNum > 0 {
        var q := dup.maxSeqNum - 9;
        while q <= dup.maxSeqNum
          invariant dup.maxSeqNum - 9 <= q <= dup.maxSeqNum + 1
          invariant recent ==
            map k | k in dup.replies && dup.maxSeqNum - 9 <= k < q :: dup.replies[k]
        {
          if q in dup.replies {
            recent := recent[q := dup.replies[q]];
          }
          q := q + 1;
        }
      }
    }

    method Snapshot() returns (image: State)
      ensures image == KvMachine.Snapshot(Value())
    {
      var compact: Clients := map[];
      var todo := clientMap.Keys;
      while todo != {}
        invariant todo <= clientMap.Keys
        invariant compact == map c | c in clientMap && c !in todo :: Recent(clientMap[c])
        decreases |todo|
      {
        assert (forall c :: c !in todo) ==> todo == {};
        var c :| c in todo;
        var recent := RecentReplies(clientMap[c]);
        compact := compact[c := DupTab(recent, clientMap[c].maxSeqNum)];
        todo := todo - {c};
      }
      image := State(cache, compact);
    }

    method Restore(image: State)
      modifies this
      ensures Value() == KvMachine.Restore(image)
    {
      cache, clientMap := image.cache, image.clients;
    }
  }
}
