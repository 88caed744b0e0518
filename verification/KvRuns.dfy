/**
 * Clerks and the kvsrv server over a network that loses requests and replies
 * and may deliver a request long after its call was given up.
 */
module KvRuns {
  import opened Payload
  import opened KvMachine
  import opened Quorums
  import opened VersionedKv

  datatype Ask = GetAsk(key: string) | PutAsk(key: string, value: string, version: nat)

  /**
   * One Get or Put of a clerk: its attempts so far, those not yet at the
   * server, the server's answer to each that was, and what the clerk returned.
   * `effects` counts how often the server changed the key for it.
   */
  datatype Call = Call(
    client: int, seqNum: int, ask: Ask,
    attempts: nat, flying: set<nat>, answers: map<nat, Answer>,
    result: Option<Answer>, effects: nat)

  datatype Net = Net(server: Server, calls: seq<Call>, last: map<int, int>)

  const Start := Net(Server(map[], map[]), [], map[])

  // ---- Steps ---------------------------------------------------------------

  datatype Step =
    | Begin(client: int, ask: Ask)
    | Serve(i: nat, a: nat)
    | Retry(i: nat)
    | Return(i: nat)

  function LastSeq(s: Net, client: int): int {
    if client in s.last then s.last[client] else 0
  }

  function PutArgsOf(c: Call): PutArgs
    requires c.ask.PutAsk?
  {
    PutArgs(c.ask.key, c.ask.value, c.ask.version, c.client, c.seqNum)
  }

  function Handle(s: Server, c: Call): (Server, Answer) {
    match c.ask
    case GetAsk(key) => VersionedKv.Get(s, GetArgs(key, c.client, c.seqNum))
    case PutAsk(_, _, _) =>
      var (s', err) := VersionedKv.Put(s, PutArgsOf(c));
      (s', Answer("", 0, err))
  }

  predicate Takes(s: Server, c: Call) {
    c.ask.PutAsk? && Effective(s, PutArgsOf(c))
  }

  function Served(s: Server, c: Call, a: nat): Call {
    c.(flying := c.flying - {a}, answers := c.answers[a := Handle(s, c).1],
       effects := if Takes(s, c) then c.effects + 1 else c.effects)
  }

  /** What the clerk makes of the answer to its latest attempt. */
  function Outcome(c: Call): Answer
    requires c.attempts >= 1 && c.attempts - 1 in c.answers
  {
    var r := c.answers[c.attempts - 1];
    if c.ask.GetAsk? then r else r.(err := Verdict(c.attempts - 1, r.err))
  }

  predicate Enabled(s: Net, st: Step) {
    match st
    case Begin(_, _) => true
    case Serve(i, a) => i < |s.calls| && a in s.calls[i].flying
    case Retry(i) => i < |s.calls| && s.calls[i].result.None?
    case Return(i) =>
      && i < |s.calls| && s.calls[i].result.None?
      && s.calls[i].attempts >= 1 && s.calls[i].attempts - 1 in s.calls[i].answers
  }

  function Apply(s: Net, st: Step): Net
    requires Enabled(s, st)
  {
    match st
    case Begin(client, ask) =>
      var q := LastSeq(s, client) + 1;
      Net(s.server, s.calls + [Call(client, q, ask, 1, {0}, map[], None, 0)], s.last[client := q])
    case Serve(i, a) =>
      Net(Handle(s.server, s.calls[i]).0, s.calls[i := Served(s.server, s.calls[i], a)], s.last)
    case Retry(i) =>
      var c := s.calls[i];
      s.(calls := s.calls[i := c.(attempts := c.attempts + 1, flying := c.flying + {c.attempts})])
    case Return(i) =>
      s.(calls := s.calls[i := s.calls[i].(result := Some(Outcome(s.calls[i])))])
  }

  ghost predicate Moves(ss: seq<Net>, k: nat)
    requires k + 1 < |ss|
  {
    exists st :: Enabled(ss[k], st) && ss[k + 1] == Apply(ss[k], st)
  }

  ghost predicate IsRun(ss: seq<Net>) {
    && |ss| >= 1 && ss[0] == Start
    && forall k: nat | k + 1 < |ss| :: Moves(ss, k)
  }

  // ---- Invariant -----------------------------------------------------------

  /** How many Puts took effect on the key. */
  function Effects(calls: seq<Call>, key: string): nat {
    if calls == [] then 0
    else Effects(calls[..|calls| - 1], key) +
         (if calls[|calls| - 1].ask.key == key then calls[|calls| - 1].effects else 0)
  }

  /** A read answer is of a past version, or of the present one and then of its value. */
  ghost predicate ReadOk(cache: Cache, key: string, r: Answer) {
    && (r.err == OK || r.err == ErrNoKey)
    && (r.err == OK ==>
          && key in cache && 1 <= r.version <= cache[key].version
          && (r.version == cache[key].version ==> r.value == cache[key].value))
  }

  ghost predicate AttemptsOk(c: Call) {
    && c.attempts >= 1
    && (forall a | a in c.flying :: a < c.attempts && a !in c.answers)
    && (forall a | a in c.answers :: a < c.attempts)
    && (c.result.Some? ==> c.attempts - 1 in c.answers && c.result.value == Outcome(c))
  }

  /** Of all attempts of a Put one at most took effect, and it alone was answered OK. */
  ghost predicate PutOk(cache: Cache, c: Call)
    requires c.ask.PutAsk?
  {
    && c.effects <= 1
    && (c.effects == 1 ==> VersionOf(cache, c.ask.key) > c.ask.version)
    && (c.effects == 1 <==> exists a :: a in c.answers && c.answers[a].err == OK)
    && (forall a | a in c.answers :: c.answers[a].err in {OK, ErrVersion, ErrNoKey})
  }

  ghost predicate CallOk(cache: Cache, c: Call) {
    && AttemptsOk(c)
    && match c.ask
       case GetAsk(key) => c.effects == 0 && forall a | a in c.answers :: ReadOk(cache, key, c.answers[a])
       case PutAsk(_, _, _) => PutOk(cache, c)
  }

  /** What a client's entry remembers comes from a call of that client and number. */
  ghost predicate DupOk(s: Net, client: int, d: Dup) {
    && (d.lastPut == Some(OK) ==>
          exists i :: 0 <= i < |s.calls| && Remembered(s.calls[i], client, d) && s.calls[i].ask.PutAsk? &&
                      s.calls[i].effects == 1)
    && (d.lastGet.Some? ==>
          exists i :: 0 <= i < |s.calls| && Remembered(s.calls[i], client, d) && s.calls[i].ask.GetAsk? &&
                      Answered(s.calls[i], d.lastGet.value))
  }

  ghost predicate Answered(c: Call, r: Answer) {
    exists a :: a in c.answers && c.answers[a] == r
  }

  predicate Remembered(c: Call, client: int, d: Dup) {
    c.client == client && c.seqNum == d.lastSeqNum
  }

  ghost predicate NumbersOk(s: Net) {
    && (forall i | 0 <= i < |s.calls| :: s.calls[i].seqNum <= LastSeq(s, s.calls[i].client))
    && (forall i, j | 0 <= i < j < |s.calls| && s.calls[i].client == s.calls[j].client ::
          s.calls[i].seqNum != s.calls[j].seqNum)
  }

  ghost predicate CountsOk(s: Net) {
    && (forall key | key in s.server.cache :: s.server.cache[key].version >= 1)
    && (forall key :: VersionOf(s.server.cache, key) == Effects(s.calls, key))
  }

  ghost predicate Inv(s: Net) {
    && (forall i | 0 <= i < |s.calls| :: CallOk(s.server.cache, s.calls[i]))
    && (forall c | c in s.server.clients :: DupOk(s, c, s.server.clients[c]))
    && NumbersOk(s) && CountsOk(s)
  }

  // ---- The remembered reply is never used for a Put ------------------------

  /** A retry repeats its arguments, so the version it needs is already gone. */
  lemma NeverCached(s: Net, i: nat)
    requires Inv(s) && i < |s.calls| && s.calls[i].ask.PutAsk?
    ensures !PutCached(s.server, PutArgsOf(s.calls[i]))
  {
    var c := s.calls[i];
    if c.client in s.server.clients && s.server.clients[c.client].lastPut == Some(OK) &&
       c.seqNum == s.server.clients[c.client].lastSeqNum {
      var d := s.server.clients[c.client];
      assert DupOk(s, c.client, d);
      var j :| 0 <= j < |s.calls| && Remembered(s.calls[j], c.client, d) && s.calls[j].ask.PutAsk? &&
               s.calls[j].effects == 1;
      assert i == j;
      assert CallOk(s.server.cache, c);
    }
  }

  // ---- Steps keep the invariant --------------------------------------------

  lemma {:induction false} EffectsAppend(calls: seq<Call>, c: Call, key: string)
    ensures Effects(calls + [c], key) == Effects(calls, key) + (if c.ask.key == key then c.effects else 0)
  {
    assert (calls + [c])[..|calls|] == calls;
  }

  lemma {:induction false} EffectsUpdate(calls: seq<Call>, i: nat, c: Call, key: string)
    requires i < |calls| && c.ask == calls[i].ask
    ensures Effects(calls[i := c], key) + (if c.ask.key == key then calls[i].effects else 0) ==
            Effects(calls, key) + (if c.ask.key == key then c.effects else 0)
  {
    var n := |calls| - 1;
    if i < n {
      EffectsUpdate(calls[..n], i, c, key);
      assert calls[i := c][..n] == calls[..n][i := c];
    } else {
      assert calls[i := c][..n] == calls[..n];
    }
  }

  lemma BeginInv(s: Net, client: int, ask: Ask)
    requires Inv(s)
    ensures Inv(Apply(s, Begin(client, ask)))
  {
    var t := Apply(s, Begin(client, ask));
    var n := |s.calls|;
    forall key ensures Effects(t.calls, key) == Effects(s.calls, key) {
      EffectsAppend(s.calls, t.calls[n], key);
    }
    forall c | c in t.server.clients ensures DupOk(t, c, t.server.clients[c]) {
      DupKept(s, t, c, s.server.clients[c]);
    }
  }

  /** d is c with more bookkeeping. */
  ghost predicate Continues(c: Call, d: Call) {
    && d.client == c.client && d.seqNum == c.seqNum && d.ask == c.ask && c.effects <= d.effects <= 1
    && forall a | a in c.answers :: a in d.answers && d.answers[a] == c.answers[a]
  }

  /** Remembered replies survive as long as calls keep what they did. */
  lemma DupKept(s: Net, t: Net, client: int, d: Dup)
    requires DupOk(s, client, d) && |s.calls| <= |t.calls|
    requires forall i | 0 <= i < |s.calls| :: Continues(s.calls[i], t.calls[i])
    ensures DupOk(t, client, d)
  {
    if d.lastPut == Some(OK) {
      var i :| 0 <= i < |s.calls| && Remembered(s.calls[i], client, d) && s.calls[i].ask.PutAsk? &&
               s.calls[i].effects == 1;
      assert Remembered(t.calls[i], client, d);
    }
    if d.lastGet.Some? {
      var i :| 0 <= i < |s.calls| && Remembered(s.calls[i], client, d) && s.calls[i].ask.GetAsk? &&
               Answered(s.calls[i], d.lastGet.value);
      assert Remembered(t.calls[i], client, d);
    }
  }

  /** A call changes in its bookkeeping only. */
  lemma LocalInv(s: Net, i: nat, c: Call)
    requires Inv(s) && i < |s.calls| && CallOk(s.server.cache, c)
    requires Continues(s.calls[i], c) && c.effects == s.calls[i].effects
    ensures Inv(s.(calls := s.calls[i := c]))
  {
    var t := s.(calls := s.calls[i := c]);
    forall key ensures Effects(t.calls, key) == Effects(s.calls, key) {
      EffectsUpdate(s.calls, i, c, key);
    }
    forall k | k in t.server.clients ensures DupOk(t, k, t.server.clients[k]) {
      DupKept(s, t, k, s.server.clients[k]);
    }
  }

  lemma RetryInv(s: Net, i: nat)
    requires Inv(s) && Enabled(s, Retry(i))
    ensures Inv(Apply(s, Retry(i)))
  {
    hide CountsOk, NumbersOk, DupOk;
    var c := s.calls[i];
    RetryCall(s.server.cache, c);
    hide CallOk;
    LocalInv(s, i, c.(attempts := c.attempts + 1, flying := c.flying + {c.attempts}));
  }

  lemma RetryCall(cache: Cache, c: Call)
    requires CallOk(cache, c) && c.result.None?
    ensures CallOk(cache, c.(attempts := c.attempts + 1, flying := c.flying + {c.attempts}))
  {
  }

  lemma ReturnInv(s: Net, i: nat)
    requires Inv(s) && Enabled(s, Return(i))
    ensures Inv(Apply(s, Return(i)))
  {
    var c := s.calls[i];
    assert CallOk(s.server.cache, c);
    LocalInv(s, i, c.(result := Some(Outcome(c))));
  }

  lemma ServeInv(s: Net, i: nat, a: nat)
    requires Inv(s) && Enabled(s, Serve(i, a))
    ensures Inv(Apply(s, Serve(i, a)))
  {
    if s.calls[i].ask.GetAsk? {
      ServeGet(s, i, a);
    } else {
      NeverCached(s, i);
      if Takes(s.server, s.calls[i]) { ServePut(s, i, a); } else { RefusePut(s, i, a); }
    }
  }

  lemma ServeGet(s: Net, i: nat, a: nat)
    requires Inv(s) && Enabled(s, Serve(i, a)) && s.calls[i].ask.GetAsk?
    ensures Inv(Apply(s, Serve(i, a)))
  {
    var c := s.calls[i];
    var t := Apply(s, Serve(i, a));
    assert CallOk(s.server.cache, c);
    var r := Handle(s.server, c).1;
    GetReads(s, i);
    assert CallOk(s.server.cache, t.calls[i]);
    LocalInv(s, i, t.calls[i]);
    hide CallOk, NumbersOk, CountsOk, ReadOk, Effects;
    forall k | k in t.server.clients ensures DupOk(t, k, t.server.clients[k]) {
      if k == c.client && !GetCached(s.server, GetArgs(c.ask.key, c.client, c.seqNum)) {
        assert a in t.calls[i].answers && t.calls[i].answers[a] == r;
        assert Answered(t.calls[i], r) && Remembered(t.calls[i], k, t.server.clients[k]);
      } else {
        DupKept(s, t, k, s.server.clients[k]);
      }
    }
  }

  /** Cached or not, the answer to a Get is a read of this key. */
  lemma GetReads(s: Net, i: nat)
    requires Inv(s) && i < |s.calls| && s.calls[i].ask.GetAsk?
    ensures ReadOk(s.server.cache, s.calls[i].ask.key, Handle(s.server, s.calls[i]).1)
  {
    var c := s.calls[i];
    if GetCached(s.server, GetArgs(c.ask.key, c.client, c.seqNum)) {
      var d := s.server.clients[c.client];
      assert DupOk(s, c.client, d);
      var j :| 0 <= j < |s.calls| && Remembered(s.calls[j], c.client, d) && s.calls[j].ask.GetAsk? &&
               Answered(s.calls[j], d.lastGet.value);
      assert i == j;
    }
  }

  /** A fresh read, or what an earlier attempt of the same call was told. */
  lemma GetAnswer(n: Net, i: nat)
    requires Inv(n) && i < |n.calls| && n.calls[i].ask.GetAsk?
    ensures var r := Handle(n.server, n.calls[i]).1;
            r == Read(n.server.cache, n.calls[i].ask.key) || Answered(n.calls[i], r)
  {
    var c := n.calls[i];
    if GetCached(n.server, GetArgs(c.ask.key, c.client, c.seqNum)) {
      var d := n.server.clients[c.client];
      assert DupOk(n, c.client, d);
      var j :| 0 <= j < |n.calls| && Remembered(n.calls[j], c.client, d) && n.calls[j].ask.GetAsk? &&
               Answered(n.calls[j], d.lastGet.value);
      assert i == j;
    }
  }

  lemma RefusePut(s: Net, i: nat, a: nat)
    requires Inv(s) && Enabled(s, Serve(i, a)) && s.calls[i].ask.PutAsk?
    requires !PutCached(s.server, PutArgsOf(s.calls[i])) && !Takes(s.server, s.calls[i])
    ensures Inv(Apply(s, Serve(i, a)))
  {
    var c := s.calls[i];
    var c' := Served(s.server, c, a);
    assert CallOk(s.server.cache, c);
    assert CallOk(s.server.cache, c') by {
      if c.effects == 1 {
        var b :| b in c.answers && c.answers[b].err == OK;
        assert b in c'.answers && c'.answers[b].err == OK;
      }
    }
    LocalInv(s, i, c');
  }

  lemma ServePut(s: Net, i: nat, a: nat)
    requires Inv(s) && Enabled(s, Serve(i, a)) && Takes(s.server, s.calls[i])
    ensures Inv(Apply(s, Serve(i, a)))
  {
    NumbersAfterPut(s, i, a);
    var c := s.calls[i];
    var t := Apply(s, Serve(i, a));
    var key := c.ask.key;
    TakenCall(s.server, c, a);
    hide CallOk, NumbersOk;
    forall j | 0 <= j < |t.calls| && j != i ensures CallOk(t.server.cache, t.calls[j]) {
      OthersAfterPut(s.server.cache, t.server.cache, PutArgsOf(c), s.calls[j]);
    }
    forall k ensures VersionOf(t.server.cache, k) == Effects(t.calls, k) {
      EffectsUpdate(s.calls, i, t.calls[i], k);
    }
    forall k | k in t.server.clients ensures DupOk(t, k, t.server.clients[k]) {
      if k == c.client {
        assert Remembered(t.calls[i], k, t.server.clients[k]);
      } else {
        DupKept(s, t, k, s.server.clients[k]);
      }
    }
  }

  lemma NumbersAfterPut(s: Net, i: nat, a: nat)
    requires NumbersOk(s) && Enabled(s, Serve(i, a))
    ensures NumbersOk(Apply(s, Serve(i, a)))
  {
  }

  lemma TakenCall(s: Server, c: Call, a: nat)
    requires CallOk(s.cache, c) && Takes(s, c) && a in c.flying
    ensures c.effects == 0 && CallOk(Handle(s, c).0.cache, Served(s, c, a))
  {
    var c' := Served(s, c, a);
    assert a in c'.answers && c'.answers[a].err == OK;
  }

  lemma OthersAfterPut(cache: Cache, cache': Cache, a: PutArgs, c: Call)
    requires CallOk(cache, c) && Fits(cache, a.key, a.version)
    requires cache' == cache[a.key := Pair(a.value, a.version + 1)]
    ensures CallOk(cache', c)
  {
  }

  lemma StepInv(s: Net, st: Step)
    requires Inv(s) && Enabled(s, st)
    ensures Inv(Apply(s, st))
  {
    match st
    case Begin(client, ask) => BeginInv(s, client, ask);
    case Serve(i, a) => ServeInv(s, i, a);
    case Retry(i) => RetryInv(s, i);
    case Return(i) => ReturnInv(s, i);
  }

  // ---- Every run -----------------------------------------------------------

  lemma {:induction false} RunInv(ss: seq<Net>, k: nat)
    requires IsRun(ss) && k < |ss|
    ensures Inv(ss[k])
  {
    hide Inv;
    if k == 0 {
      StartInv();
    } else {
      RunInv(ss, k - 1);
      assert Moves(ss, k - 1);
      var st :| Enabled(ss[k - 1], st) && ss[k] == Apply(ss[k - 1], st);
      StepInv(ss[k - 1], st);
    }
  }

  lemma StartInv()
    ensures Inv(Start)
  {
  }

  /** A returned call stays, and one that has no attempt on its way stays as it is. */
  ghost predicate Frozen(c: Call, d: Call) {
    && c.ask == d.ask && c.client == d.client && c.seqNum == d.seqNum
    && (c.result.Some? ==> d.result == c.result && d.attempts == c.attempts && d.flying <= c.flying)
    && (c.result.Some? && c.flying == {} ==> d.effects == c.effects)
  }

  lemma StepFrozen(s: Net, st: Step, i: nat)
    requires Enabled(s, st) && i < |s.calls|
    ensures i < |Apply(s, st).calls| && Frozen(s.calls[i], Apply(s, st).calls[i])
  {
  }

  lemma {:induction false} CallStays(ss: seq<Net>, j: nat, k: nat, i: nat)
    requires IsRun(ss) && j <= k < |ss| && i < |ss[j].calls|
    ensures i < |ss[k].calls| && Frozen(ss[j].calls[i], ss[k].calls[i])
    decreases k
  {
    hide Apply, Enabled;
    if j < k {
      CallStays(ss, j, k - 1, i);
      assert Moves(ss, k - 1);
      var st :| Enabled(ss[k - 1], st) && ss[k] == Apply(ss[k - 1], st);
      StepFrozen(ss[k - 1], st, i);
    }
  }

  /** The refusals a clerk can rely on: those that answer the first attempt. */
  predicate Definite(c: Call) {
    c.result.Some? && c.result.value.err != OK && c.attempts == 1
  }

  /**
   * Put is at most once: OK means it took effect exactly once, now and for the
   * rest of the run; ErrVersion, or any refusal of the first attempt, means it
   * never did and never will.
   */
  lemma PutAtMostOnce(ss: seq<Net>, j: nat, k: nat, i: nat)
    requires IsRun(ss) && j <= k < |ss| && i < |ss[j].calls| && ss[j].calls[i].ask.PutAsk?
    ensures i < |ss[k].calls| && ss[k].calls[i].effects <= 1
    ensures ss[j].calls[i].result.Some? && ss[j].calls[i].result.value.err == OK ==>
              ss[j].calls[i].effects == ss[k].calls[i].effects == 1
    ensures Definite(ss[j].calls[i]) ==> ss[k].calls[i].effects == 0
    ensures ss[j].calls[i].result.Some? && ss[j].calls[i].result.value.err == ErrVersion ==>
              Definite(ss[j].calls[i])
  {
    hide IsRun, CallOk, CountsOk, NumbersOk, DupOk;
    RunInv(ss, j);
    RunInv(ss, k);
    CallStays(ss, j, k, i);
    ResultMeans(ss[j].server.cache, ss[j].calls[i]);
    ResultMeans(ss[k].server.cache, ss[k].calls[i]);
  }

  lemma ResultMeans(cache: Cache, c: Call)
    requires CallOk(cache, c) && c.ask.PutAsk?
    ensures c.effects <= 1
    ensures c.result.Some? && c.result.value.err == OK ==> c.effects == 1
    ensures Definite(c) ==> c.effects == 0 && c.flying == {}
    ensures c.result.Some? && c.result.value.err == ErrVersion ==> Definite(c)
  {
    if Definite(c) {
      assert forall a | a in c.answers :: a == 0;
    }
  }

  /** A key's version is the number of Puts that took effect on it. */
  lemma VersionCounts(ss: seq<Net>, k: nat, key: string)
    requires IsRun(ss) && k < |ss|
    ensures VersionOf(ss[k].server.cache, key) == Effects(ss[k].calls, key)
    ensures key in ss[k].server.cache <==> Effects(ss[k].calls, key) > 0
  {
    RunInv(ss, k);
  }

  /** The server never answers a Put of this kind from its table. */
  lemma DuplicateReplyUnreachable(ss: seq<Net>, k: nat, i: nat, a: nat)
    requires IsRun(ss) && k < |ss| && Enabled(ss[k], Serve(i, a)) && ss[k].calls[i].ask.PutAsk?
    ensures !PutCached(ss[k].server, PutArgsOf(ss[k].calls[i]))
  {
    RunInv(ss, k);
    NeverCached(ss[k], i);
  }

  // ---- What a Get returns --------------------------------------------------

  /** Every answer to a Get was the key's content in some state since the Get began. */
  lemma {:induction false} AnswerWas(ss: seq<Net>, k: nat, i: nat, a: nat) returns (j: nat)
    requires IsRun(ss) && k < |ss| && i < |ss[k].calls| && ss[k].calls[i].ask.GetAsk?
    requires a in ss[k].calls[i].answers
    ensures j <= k && i < |ss[j].calls|
    ensures ss[k].calls[i].answers[a] == Read(ss[j].server.cache, ss[k].calls[i].ask.key)
    decreases k
  {
    assert Moves(ss, k - 1);
    var s := ss[k - 1];
    var st :| Enabled(s, st) && ss[k] == Apply(s, st);
    RunInv(ss, k - 1);
    hide Inv, IsRun;
    if st == Serve(i, a) {
      GetAnswer(s, i);
      var r := Handle(s.server, s.calls[i]).1;
      if r == Read(s.server.cache, s.calls[i].ask.key) {
        j := k - 1;
      } else {
        var b :| b in s.calls[i].answers && s.calls[i].answers[b] == r;
        j := AnswerWas(ss, k - 1, i, b);
      }
    } else {
      SameAnswer(s, st, i, a);
      j := AnswerWas(ss, k - 1, i, a);
    }
  }

  lemma SameAnswer(s: Net, st: Step, i: nat, a: nat)
    requires Enabled(s, st) && i < |Apply(s, st).calls| && a in Apply(s, st).calls[i].answers && st != Serve(i, a)
    ensures i < |s.calls| && a in s.calls[i].answers
    ensures s.calls[i].answers[a] == Apply(s, st).calls[i].answers[a] && s.calls[i].ask == Apply(s, st).calls[i].ask
  {
  }

  /** What a Get returned was the key's content in some state after it began and before it returned. */
  lemma {:induction false} GetWasTrue(ss: seq<Net>, k: nat, i: nat) returns (j: nat)
    requires IsRun(ss) && k < |ss| && i < |ss[k].calls| && ss[k].calls[i].ask.GetAsk?
    requires ss[k].calls[i].result.Some?
    ensures j < k && i < |ss[j].calls| && ss[j].calls[i].result.None?
    ensures ss[k].calls[i].result.value == Read(ss[j].server.cache, ss[k].calls[i].ask.key)
    decreases k
  {
    assert Moves(ss, k - 1);
    var s := ss[k - 1];
    var st :| Enabled(s, st) && ss[k] == Apply(s, st);
    if i < |s.calls| && s.calls[i].result.Some? {
      StepFrozen(s, st, i);
      j := GetWasTrue(ss, k - 1, i);
    } else {
      assert st == Return(i);
      j := AnswerWas(ss, k - 1, i, s.calls[i].attempts - 1);
      hide IsRun;
      CallStays(ss, j, k - 1, i);
    }
  }

  // ---- What a Put is told --------------------------------------------------

  /** What the state of the key says to a Put of this version. */
  function Judged(cache: Cache, ask: Ask): Err
    requires ask.PutAsk?
  {
    if ask.key !in cache then (if ask.version == 0 then OK else ErrNoKey)
    else if ask.version == cache[ask.key].version then OK else ErrVersion
  }

  /** In every run, serving a Put answers as the key's state says, and writes exactly when that is OK. */
  lemma PutServed(ss: seq<Net>, k: nat, i: nat, a: nat)
    requires IsRun(ss) && k < |ss| && Enabled(ss[k], Serve(i, a)) && ss[k].calls[i].ask.PutAsk?
    ensures var s := ss[k]; var t := Apply(s, Serve(i, a)); var ask := s.calls[i].ask;
            && a in t.calls[i].answers && t.calls[i].answers[a].err == Judged(s.server.cache, ask)
            && t.server.cache == (if Judged(s.server.cache, ask) == OK
                                  then s.server.cache[ask.key := Pair(ask.value, ask.version + 1)]
                                  else s.server.cache)
  {
    RunInv(ss, k);
    NeverCached(ss[k], i);
    hide IsRun, Inv;
  }

  /** Every answer to a Put was what the key's state said when an attempt arrived. */
  lemma {:induction false} PutAnswerWas(ss: seq<Net>, k: nat, i: nat, a: nat) returns (j: nat)
    requires IsRun(ss) && k < |ss| && i < |ss[k].calls| && ss[k].calls[i].ask.PutAsk?
    requires a in ss[k].calls[i].answers
    ensures j < k && i < |ss[j].calls| && a in ss[j].calls[i].flying
    ensures ss[k].calls[i].answers[a].err == Judged(ss[j].server.cache, ss[k].calls[i].ask)
    decreases k
  {
    assert Moves(ss, k - 1);
    var s := ss[k - 1];
    var st :| Enabled(s, st) && ss[k] == Apply(s, st);
    if st == Serve(i, a) {
      RunInv(ss, k - 1);
      NeverCached(s, i);
      j := k - 1;
    } else {
      SameAnswer(s, st, i, a);
      j := PutAnswerWas(ss, k - 1, i, a);
    }
  }

  /** What a Put returned is the verdict on what the key's state said to its last attempt. */
  lemma {:induction false} PutWasTrue(ss: seq<Net>, k: nat, i: nat) returns (j: nat)
    requires IsRun(ss) && k < |ss| && i < |ss[k].calls| && ss[k].calls[i].ask.PutAsk?
    requires ss[k].calls[i].result.Some?
    ensures j < k && i < |ss[j].calls| && ss[j].calls[i].result.None?
    ensures ss[k].calls[i].attempts >= 1
    ensures ss[k].calls[i].result.value.err ==
            Verdict(ss[k].calls[i].attempts - 1, Judged(ss[j].server.cache, ss[k].calls[i].ask))
    decreases k
  {
    assert Moves(ss, k - 1);
    var s := ss[k - 1];
    var st :| Enabled(s, st) && ss[k] == Apply(s, st);
    if i < |s.calls| && s.calls[i].result.Some? {
      StepFrozen(s, st, i);
      j := PutWasTrue(ss, k - 1, i);
    } else {
      assert st == Return(i);
      j := PutAnswerWas(ss, k - 1, i, s.calls[i].attempts - 1);
      hide IsRun;
      CallStays(ss, j, k - 1, i);
    }
  }

  // ---- A refusal after a retry is not certain ------------------------------

  /** A Put that returned this error after so many attempts never takes effect, in any run. */
  ghost predicate NeverTakes(err: Err, n: nat) {
    forall ss: seq<Net>, j: nat, k: nat, i: nat | IsRun(ss) && j <= k < |ss| && Returned(ss, j, i, err, n) ::
      i < |ss[k].calls| && ss[k].calls[i].effects == 0
  }

  predicate Returned(ss: seq<Net>, j: nat, i: nat, err: Err, n: nat)
    requires j < |ss|
  {
    && i < |ss[j].calls| && ss[j].calls[i].ask.PutAsk? && ss[j].calls[i].attempts == n
    && ss[j].calls[i].result.Some? && ss[j].calls[i].result.value.err == err
  }

  lemma Then(ss: seq<Net>, st: Step) returns (r: seq<Net>)
    requires IsRun(ss) && Enabled(ss[|ss| - 1], st)
    ensures IsRun(r) && r == ss + [Apply(ss[|ss| - 1], st)]
  {
    r := ss + [Apply(ss[|ss| - 1], st)];
    hide Apply, Enabled;
    forall k: nat | k + 1 < |r| ensures Moves(r, k) {
      if k + 1 < |ss| {
        assert Moves(ss, k);
        var before :| Enabled(ss[k], before) && ss[k + 1] == Apply(ss[k], before);
        assert Enabled(r[k], before) && r[k + 1] == Apply(r[k], before);
      } else {
        assert Enabled(r[k], st) && r[k + 1] == Apply(r[k], st);
      }
    }
  }

  const Late := PutAsk("k", "v", 1)
  const First := PutAsk("k", "w", 0)

  /** n attempts of a Put are on their way. */
  ghost function Attempted(n: nat): Net {
    Net(Server(map[], map[]), [Call(1, 1, Late, n, Range(n), map[], None, 0)], map[1 := 1])
  }

  lemma StartRuns()
    ensures IsRun([Start])
  {
  }

  lemma FirstAttempt()
    ensures Apply(Start, Begin(1, Late)) == Attempted(1)
  {
    assert Range(1) == {0};
  }

  lemma OneRetry(n: nat)
    requires n >= 1
    ensures Enabled(Attempted(n), Retry(0)) && Apply(Attempted(n), Retry(0)) == Attempted(n + 1)
  {
    assert Range(n + 1) == Range(n) + {n};
    var c := Attempted(n).calls[0];
    assert Apply(Attempted(n), Retry(0)).calls == [c.(attempts := n + 1, flying := c.flying + {n})];
  }

  lemma {:induction false} Attempts(n: nat) returns (ss: seq<Net>)
    requires n >= 1
    ensures IsRun(ss) && ss[|ss| - 1] == Attempted(n)
  {
    hide IsRun, Apply, Attempted;
    if n == 1 {
      StartRuns();
      FirstAttempt();
      ss := Then([Start], Begin(1, Late));
    } else {
      var before := Attempts(n - 1);
      OneRetry(n - 1);
      ss := Then(before, Retry(0));
    }
  }

  /** The last attempt is told there is no such key, the key is made, and the first attempt arrives. */
  lemma LateEffect(n: nat) returns (ss: seq<Net>, j: nat, k: nat)
    requires n >= 2
    ensures IsRun(ss) && j <= k < |ss| && Returned(ss, j, 0, ErrNoKey, n)
    ensures |ss[k].calls| > 0 && ss[k].calls[0].effects == 1
  {
    hide IsRun;
    ss := Attempts(n);
    ss := Then(ss, Serve(0, n - 1));
    ss := Then(ss, Return(0));
    j := |ss| - 1;
    assert Returned(ss, j, 0, ErrNoKey, n);
    ss := Then(ss, Begin(2, First));
    ss := Then(ss, Serve(1, 0));
    ss := Then(ss, Serve(0, 0));
    k := |ss| - 1;
  }

  /** A refusal is certain exactly when it answers the first attempt. */
  lemma RefusalCertainIff(n: nat)
    requires n >= 1
    ensures NeverTakes(ErrNoKey, n) <==> n == 1
    ensures NeverTakes(ErrVersion, n)
  {
    hide IsRun;
    if n >= 2 {
      var ss, j, k := LateEffect(n);
      assert Returned(ss, j, 0, ErrNoKey, n);
    }
    forall ss: seq<Net>, j: nat, k: nat, i: nat, err: Err |
      IsRun(ss) && j <= k < |ss| && Returned(ss, j, i, err, n) && (err == ErrVersion || (n == 1 && err == ErrNoKey))
      ensures i < |ss[k].calls| && ss[k].calls[i].effects == 0
    {
      PutAtMostOnce(ss, j, k, i);
    }
  }
}
