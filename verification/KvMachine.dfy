/**
 * The replicated key/value state machine of kvraft: versioned Get and Put with
 * a table of recent replies per client, trimmed on use and again in snapshots.
 */
module KvMachine {

  datatype Err = OK | ErrNoKey | ErrVersion | ErrMaybe | ErrWrongLeader

  datatype Request = Request(
    command: string, key: string, value: string,
    seqNum: int, clientId: int, version: nat)

  datatype Reply = Reply(command: string, value: string, version: nat, err: Err)

  datatype Pair = Pair(value: string, version: nat)

  datatype DupTab = DupTab(replies: map<int, Reply>, maxSeqNum: int)

  type Cache = map<string, Pair>
  type Clients = map<int, DupTab>

  datatype State = State(cache: Cache, clients: Clients)

  const GET := "Get"
  const PUT := "Put"

  const Refusal := Reply("", "", 0, ErrWrongLeader)

  predicate Known(req: Request) {
    req.command == GET || req.command == PUT
  }

  // ---- One fresh request against the store ---------------------------------

  predicate Writes(cache: Cache, req: Request) {
    && req.command == PUT
    && (if req.key in cache then cache[req.key].version == req.version else req.version == 0)
  }

  function NewCache(cache: Cache, req: Request): Cache {
    if Writes(cache, req) then cache[req.key := Pair(req.value, req.version + 1)] else cache
  }

  function FreshReply(cache: Cache, req: Request): Reply
    requires Known(req)
  {
    if req.command == GET then
      if req.key in cache
      then Reply(GET, cache[req.key].value, cache[req.key].version, OK)
      else Reply(GET, "", req.version, ErrNoKey)
    else if Writes(cache, req)
    then Reply(PUT, "", req.version + 1, OK)
    else Reply(PUT, "", req.version, ErrVersion)
  }

  // ---- The server's operations ---------------------------------------------

  predicate Seen(s: State, req: Request) {
    req.clientId in s.clients && req.seqNum in s.clients[req.clientId].replies
  }

  /** Record a reply; a new highest number drops those more than 100 below it. */
  function Record(d: DupTab, q: int, r: Reply): DupTab {
    var all := d.replies[q := r];
    if q > d.maxSeqNum
    then DupTab(map k | k in all && k >= q - 100 :: all[k], q)
    else DupTab(all, d.maxSeqNum)
  }

  function DoOp(s: State, req: Request): (State, Reply) {
    if Seen(s, req) then
      (s, s.clients[req.clientId].replies[req.seqNum])
    else if !Known(req) then
      (s, Refusal)
    else
      var r := FreshReply(s.cache, req);
      var d := if req.clientId in s.clients
               then Record(s.clients[req.clientId], req.seqNum, r)
               else DupTab(map[req.seqNum := r], req.seqNum);
      (State(NewCache(s.cache, req), s.clients[req.clientId := d]), r)
  }

  /** What a snapshot keeps of one client: the replies to its last ten numbers. */
  function Recent(d: DupTab): DupTab {
    if d.maxSeqNum > 0
    then DupTab(map q | q in d.replies && d.maxSeqNum - 9 <= q <= d.maxSeqNum :: d.replies[q],
                d.maxSeqNum)
    else DupTab(map[], d.maxSeqNum)
  }

  function Snapshot(s: State): State {
    State(s.cache, map c | c in s.clients :: Recent(s.clients[c]))
  }

  /** Encoding is the identity on values, so restoring just installs the image. */
  function Restore(image: State): State {
    image
  }

  const Empty := State(map[], map[])

  // ---- The same machine with an unlimited reply table ----------------------

  datatype Ref = Ref(cache: Cache, replies: map<(int, int), Reply>, highest: map<int, int>)

  const RefEmpty := Ref(map[], map[], map[])

  predicate Fresh(u: Ref, req: Request) {
    Known(req) && (req.clientId, req.seqNum) !in u.replies
  }

  function Highest(u: Ref, req: Request): int {
    if req.clientId in u.highest && u.highest[req.clientId] >= req.seqNum
    then u.highest[req.clientId] else req.seqNum
  }

  function RefOp(u: Ref, req: Request): (Ref, Reply) {
    if (req.clientId, req.seqNum) in u.replies then
      (u, u.replies[(req.clientId, req.seqNum)])
    else if !Known(req) then
      (u, Refusal)
    else
      var r := FreshReply(u.cache, req);
      (Ref(NewCache(u.cache, req),
           u.replies[(req.clientId, req.seqNum) := r],
           u.highest[req.clientId := Highest(u, req)]),
       r)
  }

  function RefRun(log: seq<Request>): Ref {
    if log == [] then RefEmpty else RefOp(RefRun(log[..|log| - 1]), log[|log| - 1]).0
  }

  /** Numbers are positive, and a repeated one is within 9 of the client's highest. */
  predicate InWindow(u: Ref, req: Request) {
    && req.seqNum >= 1
    && ((req.clientId, req.seqNum) in u.replies && req.clientId in u.highest ==>
          req.seqNum >= u.highest[req.clientId] - 9)
  }

  predicate Windowed(log: seq<Request>) {
    log == [] ||
    (Windowed(log[..|log| - 1]) && InWindow(RefRun(log[..|log| - 1]), log[|log| - 1]))
  }

  // ---- Bounded and unlimited tables agree ----------------------------------

  ghost predicate SimClient(d: DupTab, u: Ref, c: int) {
    && c in u.highest && d.maxSeqNum == u.highest[c] >= 1
    && (forall q | q in d.replies :: (c, q) in u.replies && d.replies[q] == u.replies[(c, q)])
    && (forall q | (c, q) in u.replies && q >= d.maxSeqNum - 9 :: q in d.replies)
    && (forall q | (c, q) in u.replies :: q <= d.maxSeqNum)
  }

  ghost predicate Sim(s: State, u: Ref) {
    && s.cache == u.cache
    && s.clients.Keys == u.highest.Keys
    && (forall c | c in s.clients :: SimClient(s.clients[c], u, c))
    && (forall c, q | (c, q) in u.replies :: c in u.highest)
  }

  lemma SimEmpty()
    ensures Sim(Empty, RefEmpty)
  {
  }

  lemma RecordSim(d: DupTab, u: Ref, c: int, req: Request)
    requires SimClient(d, u, c) && c == req.clientId && Fresh(u, req) && InWindow(u, req)
    ensures SimClient(Record(d, req.seqNum, FreshReply(u.cache, req)), RefOp(u, req).0, c)
  {
  }

  /** One request: the same reply, and the states still correspond. */
  lemma DoOpSim(s: State, u: Ref, req: Request)
    requires Sim(s, u) && InWindow(u, req)
    ensures DoOp(s, req).1 == RefOp(u, req).1
    ensures Sim(DoOp(s, req).0, RefOp(u, req).0)
  {
    var c := req.clientId;
    if c in s.clients { assert SimClient(s.clients[c], u, c); }
    if (c, req.seqNum) in u.replies {
      assert Seen(s, req);
    } else if Fresh(u, req) {
      var s', u' := DoOp(s, req).0, RefOp(u, req).0;
      if c in s.clients { RecordSim(s.clients[c], u, c, req); }
      forall k | k in s'.clients ensures SimClient(s'.clients[k], u', k) {
        if k != c { assert SimClient(s.clients[k], u, k); }
      }
    }
  }

  /** Trimming a snapshot and restoring it changes nothing that can be observed. */
  lemma SnapshotSim(s: State, u: Ref)
    requires Sim(s, u)
    ensures Sim(Restore(Snapshot(s)), u)
  {
    var t := Restore(Snapshot(s));
    forall c | c in t.clients ensures SimClient(t.clients[c], u, c) {
      assert SimClient(s.clients[c], u, c);
    }
  }

  /** The window is exact: a restored replica knows a repeat only inside it. */
  lemma RestoredSees(s: State, u: Ref, req: Request)
    requires Sim(s, u) && req.seqNum >= 1
    requires (req.clientId, req.seqNum) in u.replies
    ensures Seen(Restore(Snapshot(s)), req) <==> InWindow(u, req)
  {
    assert SimClient(s.clients[req.clientId], u, req.clientId);
  }

  // ---- Fresh executions are legal steps of the sequential model ------------

  datatype KvState = KvState(value: string, version: nat)

  /** KvModel.Step for a put (op 1) or a get (op 0) on one key. */
  function ModelStep(st: KvState, put: bool, value: string, version: nat, out: Reply): (bool, KvState) {
    if !put then (out.value == st.value, st)
    else if st.version == version
    then (out.err == OK || out.err == ErrMaybe, KvState(value, st.version + 1))
    else (out.err == ErrVersion || out.err == ErrMaybe, st)
  }

  function KeyState(cache: Cache, key: string): KvState {
    if key in cache then KvState(cache[key].value, cache[key].version) else KvState("", 0)
  }

  /** Stored versions are positive: an absent key and version 0 are the same. */
  ghost predicate Positive(cache: Cache) {
    forall k | k in cache :: cache[k].version >= 1
  }

  lemma FreshIsLegal(cache: Cache, req: Request, key: string)
    requires Known(req) && Positive(cache)
    ensures Positive(NewCache(cache, req))
    ensures key == req.key ==>
              ModelStep(KeyState(cache, key), req.command == PUT, req.value, req.version, FreshReply(cache, req))
                == (true, KeyState(NewCache(cache, req), key))
    ensures key != req.key ==> KeyState(NewCache(cache, req), key) == KeyState(cache, key)
  {
  }

  lemma {:induction false} RefRunPositive(log: seq<Request>)
    ensures Positive(RefRun(log).cache)
  {
    if log != [] { RefRunPositive(log[..|log| - 1]); }
  }

  /**
   * Each reply in a log is the model's answer to a fresh request, or the reply
   * given before to the same client and number.
   */
  lemma RepliesLegal(log: seq<Request>, req: Request)
    requires Known(req)
    ensures var u := RefRun(log); var (u', r) := RefOp(u, req);
            if Fresh(u, req)
            then ModelStep(KeyState(u.cache, req.key), req.command == PUT, req.value, req.version, r)
                   == (true, KeyState(u'.cache, req.key))
            else u' == u && exists k ::
                   && 0 <= k < |log| && log[k].clientId == req.clientId && log[k].seqNum == req.seqNum
                   && RefOp(RefRun(log[..k]), log[k]).1 == r
  {
    RefRunPositive(log);
    if Fresh(RefRun(log), req) {
      FreshIsLegal(RefRun(log).cache, req, req.key);
    } else {
      var k := FirstAnswer(log, req.clientId, req.seqNum);
    }
  }

  lemma {:induction false} FirstAnswer(log: seq<Request>, c: int, q: int) returns (k: nat)
    requires (c, q) in RefRun(log).replies
    ensures k < |log| && log[k].clientId == c && log[k].seqNum == q
    ensures RefOp(RefRun(log[..k]), log[k]).1 == RefRun(log).replies[(c, q)]
    ensures Known(log[k]) && (c, q) !in RefRun(log[..k]).replies
  {
    var n := |log| - 1;
    if (c, q) in RefRun(log[..n]).replies {
      k := FirstAnswer(log[..n], c, q);
      assert log[..n][..k] == log[..k];
    } else {
      k := n;
    }
  }

  // ---- The window is needed ------------------------------------------------

  function PutReq(q: int, v: nat): Request {
    Request(PUT, "k", "x", q, 7, v)
  }

  /** A retry ten numbers back is executed again by a replica that restored. */
  lemma RetryOutsideWindow()
    ensures var s := DoOp(DoOp(Empty, PutReq(1, 0)).0, PutReq(11, 1)).0;
            && DoOp(s, PutReq(1, 0)).1.err == OK
            && DoOp(Restore(Snapshot(s)), PutReq(1, 0)).1.err == ErrVersion
  {
    var s1 := DoOp(Empty, PutReq(1, 0)).0;
    var s := DoOp(s1, PutReq(11, 1)).0;
    assert s.clients[7].maxSeqNum == 11 && 1 in s.clients[7].replies;
    var t := Restore(Snapshot(s));
    assert 1 !in t.clients[7].replies;
    assert !Seen(t, PutReq(1, 0));
  }
}
