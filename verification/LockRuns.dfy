/** The lock: any number of clients over one key of a kvsrv server. */
module LockRuns {
  import opened Payload
  import opened KvMachine
  import opened VersionedKv
  import opened KvRuns

  // ---- What Acquire and Release do between calls ---------------------------

  /** Where a client is: outside, waiting for a call of the clerk, or inside. */
  datatype Where = Idle | AcqGet | AcqPut | Held | RelGet | RelPut

  /** The answer to the pending call: where to go, and what to ask next. */
  function Next(at: Where, key: string, id: string, r: Answer): (Where, Option<Ask>) {
    match at
    case AcqGet =>
      if r.err == ErrNoKey then (AcqPut, Some(PutAsk(key, id, 0)))
      else if r.err == OK && r.value == id then (Held, None)
      else if r.err == OK && r.value == "" then (AcqPut, Some(PutAsk(key, id, r.version)))
      else (AcqGet, Some(GetAsk(key)))
    case AcqPut =>
      if r.err == OK then (Held, None) else (AcqGet, Some(GetAsk(key)))
    case RelGet =>
      if r.err == ErrNoKey then (Idle, None)
      else if r.err == OK && r.value == id then (RelPut, Some(PutAsk(key, "", r.version)))
      else if r.err == OK then (Idle, None)
      else (RelGet, Some(GetAsk(key)))
    case RelPut =>
      if r.err == OK then (Idle, None) else (RelGet, Some(GetAsk(key)))
    case _ => (at, None)
  }

  predicate Waits(at: Where) {
    at == AcqGet || at == AcqPut || at == RelGet || at == RelPut
  }

  /** Where a run of answers leads from `at`, and what is asked on the way. */
  function Drive(at: Where, key: string, id: string, answers: seq<Answer>): (Where, seq<Ask>)
    decreases answers
  {
    if answers == [] || !Waits(at) then (at, [])
    else
      var (next, ask) := Next(at, key, id, answers[0]);
      var (end, asks) := Drive(next, key, id, answers[1..]);
      (end, (if ask.Some? then [ask.value] else []) + asks)
  }

  /** After n answers the control is at `at`, having asked `asks`. */
  ghost predicate Along(start: Where, key: string, id: string, answers: seq<Answer>,
                        n: nat, at: Where, asks: seq<Ask>)
    requires n <= |answers|
  {
    var (end, more) := Drive(at, key, id, answers[n..]);
    Drive(start, key, id, answers) == (end, asks + more)
  }

  lemma Begins(start: Where, key: string, id: string, answers: seq<Answer>)
    ensures Along(start, key, id, answers, 0, start, [])
  {
    assert answers[0..] == answers;
    assert [] + Drive(start, key, id, answers).1 == Drive(start, key, id, answers).1;
  }

  lemma OneMore(start: Where, key: string, id: string, answers: seq<Answer>, n: nat, at: Where, asks: seq<Ask>)
    requires n < |answers| && Waits(at) && Along(start, key, id, answers, n, at, asks)
    ensures var (next, ask) := Next(at, key, id, answers[n]);
            Along(start, key, id, answers, n + 1, next, asks + (if ask.Some? then [ask.value] else []))
  {
    var (next, ask) := Next(at, key, id, answers[n]);
    var (end, more) := Drive(next, key, id, answers[n + 1..]);
    assert answers[n..][1..] == answers[n + 1..];
    var extra := if ask.Some? then [ask.value] else [];
    assert asks + (extra + more) == asks + extra + more;
  }

  lemma Stops(start: Where, key: string, id: string, answers: seq<Answer>, n: nat, at: Where, asks: seq<Ask>)
    requires n <= |answers| && Along(start, key, id, answers, n, at, asks) && (n == |answers| || !Waits(at))
    ensures Drive(start, key, id, answers) == (at, asks)
  {
    assert asks + [] == asks;
  }

  // ---- The system ----------------------------------------------------------

  /** `held` from the return of Acquire to the effect of Release. */
  datatype Client = Client(clerk: int, id: string, at: Where, call: nat, held: bool)

  datatype System = System(net: Net, key: string, clients: seq<Client>)

  ghost predicate Init(s: System) {
    && s.net == Start
    && (forall c | 0 <= c < |s.clients| ::
          s.clients[c].at == Idle && !s.clients[c].held && s.clients[c].id != "")
    && Distinct(s)
  }

  ghost predicate Distinct(s: System) {
    forall c, d | 0 <= c < d < |s.clients| ::
      s.clients[c].id != s.clients[d].id && s.clients[c].clerk != s.clients[d].clerk
  }

  datatype Move =
    | Acquire(c: nat)
    | Release(c: nat)
    | Resume(c: nat)
    | Network(st: Step)

  /**
   * The network moves freely.  Other programs may use other clerks, and write
   * any key but the lock's.
   */
  predicate Allowed(s: System, m: Move) {
    match m
    case Acquire(c) => c < |s.clients| && s.clients[c].at == Idle
    case Release(c) => c < |s.clients| && (s.clients[c].at == Held || s.clients[c].at == Idle)
    case Resume(c) =>
      && c < |s.clients| && Waits(s.clients[c].at)
      && s.clients[c].call < |s.net.calls| && s.net.calls[s.clients[c].call].result.Some?
    case Network(st) =>
      && Enabled(s.net, st)
      && (st.Begin? ==>
            && (forall c | 0 <= c < |s.clients| :: s.clients[c].clerk != st.client)
            && (st.ask.PutAsk? ==> st.ask.key != s.key))
  }

  /** Client c asks its clerk for something and waits. */
  function Asks(s: System, c: nat, at: Where, ask: Ask): System
    requires c < |s.clients|
  {
    var me := s.clients[c];
    s.(net := Apply(s.net, Begin(me.clerk, ask)),
       clients := s.clients[c := me.(at := at, call := |s.net.calls|)])
  }

  function Goes(s: System, c: nat, at: Where): System
    requires c < |s.clients|
  {
    s.(clients := s.clients[c := s.clients[c].(at := at, held := at == Held)])
  }

  /** A release that takes effect ends the holding. */
  function Freed(s: System, st: Step): seq<Client>
    requires Enabled(s.net, st)
  {
    if st.Serve? && Takes(s.net.server, s.net.calls[st.i])
    then seq(|s.clients|, c requires 0 <= c < |s.clients| =>
           var me := s.clients[c];
           if me.at == RelPut && me.call == st.i then me.(held := false) else me)
    else s.clients
  }

  function Do(s: System, m: Move): System
    requires Allowed(s, m)
  {
    match m
    case Acquire(c) => Asks(s, c, AcqGet, GetAsk(s.key))
    case Release(c) => Asks(s, c, RelGet, GetAsk(s.key))
    case Resume(c) =>
      var me := s.clients[c];
      var (at, ask) := Next(me.at, s.key, me.id, s.net.calls[me.call].result.value);
      if ask.Some? then Asks(s, c, at, ask.value) else Goes(s, c, at)
    case Network(st) => s.(net := Apply(s.net, st), clients := Freed(s, st))
  }

  ghost predicate MovesOn(ss: seq<System>, k: nat)
    requires k + 1 < |ss|
  {
    exists m :: Allowed(ss[k], m) && ss[k + 1] == Do(ss[k], m)
  }

  ghost predicate IsLockRun(ss: seq<System>) {
    && |ss| >= 1 && Init(ss[0])
    && forall k: nat | k + 1 < |ss| :: MovesOn(ss, k)
  }

  // ---- Invariant -----------------------------------------------------------

  function Cur(s: System): nat {
    VersionOf(s.net.server.cache, s.key)
  }

  predicate ValueIs(s: System, v: string) {
    s.key in s.net.server.cache && s.net.server.cache[s.key].value == v
  }

  predicate Free(s: System) {
    s.key in s.net.server.cache ==> s.net.server.cache[s.key].value == ""
  }

  /** Every answer to a client's read tells it truly whether the key holds its id. */
  ghost predicate TruthTold(s: System, me: Client, answers: map<nat, Answer>) {
    forall a | a in answers ::
      var r := answers[a];
      && (r.err == OK && r.value == me.id <==> ValueIs(s, me.id))
      && (ValueIs(s, me.id) ==> r.version == Cur(s))
  }

  ghost predicate ClientOk(s: System, me: Client) {
    && me.id != ""
    && (me.held ==> ValueIs(s, me.id) && (me.at == Held || me.at == RelGet || me.at == RelPut))
    && (me.at == Held ==> me.held)
    && (me.at == Idle ==> !ValueIs(s, me.id))
    && (Waits(me.at) ==> me.call < |s.net.calls| && s.net.calls[me.call].client == me.clerk)
    && match me.at
       case AcqGet =>
         s.net.calls[me.call].ask == GetAsk(s.key) && TruthTold(s, me, s.net.calls[me.call].answers)
       case AcqPut =>
         var call := s.net.calls[me.call];
         && call.ask.PutAsk? && call.ask == PutAsk(s.key, me.id, call.ask.version)
         && (call.ask.version == Cur(s) ==> Free(s))
         && (call.effects == 1 <==> ValueIs(s, me.id))
       case RelGet =>
         s.net.calls[me.call].ask == GetAsk(s.key) && TruthTold(s, me, s.net.calls[me.call].answers)
       case RelPut =>
         var call := s.net.calls[me.call];
         && call.ask.PutAsk? && call.ask == PutAsk(s.key, "", call.ask.version)
         && (call.effects == 0 <==> ValueIs(s, me.id))
         && (call.effects == 0 <==> call.ask.version == Cur(s))
       case _ => true
  }

  /** A Put on the lock can still take effect only while its client waits for it. */
  ghost predicate LockPutOk(s: System, j: nat)
    requires j < |s.net.calls|
  {
    var call := s.net.calls[j];
    call.ask.PutAsk? && call.ask.key == s.key ==>
      && call.ask.version <= Cur(s)
      && (call.answers != map[] ==> call.ask.version < Cur(s))
      && (call.ask.version == Cur(s) ==> exists c :: 0 <= c < |s.clients| && WaitsFor(s.clients[c], j))
  }

  predicate WaitsFor(me: Client, j: nat) {
    (me.at == AcqPut || me.at == RelPut) && me.call == j
  }

  ghost predicate LockInv(s: System) {
    && Inv(s.net) && Distinct(s)
    && (forall c | 0 <= c < |s.clients| :: ClientOk(s, s.clients[c]))
    && (forall j | 0 <= j < |s.net.calls| :: LockPutOk(s, j))
  }

  /** The lock's key is as it was. */
  predicate SameLock(s: System, t: System) {
    && t.key == s.key
    && (s.key in s.net.server.cache <==> s.key in t.net.server.cache)
    && (s.key in s.net.server.cache ==> s.net.server.cache[s.key] == t.net.server.cache[s.key])
  }

  lemma ClientStays(s: System, t: System, me: Client)
    requires ClientOk(s, me) && SameLock(s, t)
    requires Waits(me.at) ==>
               && me.call < |t.net.calls|
               && var c, d := s.net.calls[me.call], t.net.calls[me.call];
                  && d.ask == c.ask && d.client == c.client && d.effects == c.effects
                  && (me.at == AcqGet || me.at == RelGet ==> d.answers == c.answers)
    ensures ClientOk(t, me)
  {
  }

  // ---- A client starts a call ----------------------------------------------

  lemma AsksInv(s: System, c: nat, at: Where, ask: Ask)
    requires LockInv(s) && c < |s.clients|
    requires s.clients[c].at in {AcqPut, RelPut} ==>
               s.clients[c].call < |s.net.calls| && s.net.calls[s.clients[c].call].answers != map[]
    requires ask.key == s.key
    requires match at
             case AcqGet => ask.GetAsk? && !s.clients[c].held
             case RelGet => ask.GetAsk?
             case AcqPut =>
               && ask.PutAsk? && ask.value == s.clients[c].id && !s.clients[c].held
               && ask.version <= Cur(s) && (ask.version == Cur(s) ==> Free(s)) && !ValueIs(s, s.clients[c].id)
             case RelPut => ask.PutAsk? && ask.value == "" && ask.version == Cur(s) && ValueIs(s, s.clients[c].id)
             case _ => false
    ensures LockInv(Asks(s, c, at, ask))
  {
    var t := Asks(s, c, at, ask);
    BeginInv(s.net, s.clients[c].clerk, ask);
    hide Inv;
    var n := |s.net.calls|;
    forall j | 0 <= j < |t.net.calls| ensures LockPutOk(t, j) {
      if j < n {
        assert LockPutOk(s, j);
        StillWaited(s, t, c, j);
      } else if ask.PutAsk? {
        assert WaitsFor(t.clients[c], n);
      }
    }
    assert ClientOk(s, s.clients[c]);
    assert ClientOk(t, t.clients[c]);
    forall d | 0 <= d < |t.clients| && d != c ensures ClientOk(t, t.clients[d]) {
      Called(s, s.clients[d]);
      hide ClientOk;
      ClientStays(s, t, s.clients[d]);
    }
  }

  lemma Called(s: System, me: Client)
    requires ClientOk(s, me)
    ensures Waits(me.at) ==> me.call < |s.net.calls|
  {
  }

  /** Only c moves, and what it waited for before is settled. */
  lemma StillWaited(s: System, t: System, c: nat, j: nat)
    requires j < |s.net.calls| <= |t.net.calls| && LockPutOk(s, j) && t.net.calls[j] == s.net.calls[j]
    requires t.key == s.key && t.net.server == s.net.server && |t.clients| == |s.clients| && c < |s.clients|
    requires forall d | 0 <= d < |s.clients| && d != c :: t.clients[d] == s.clients[d]
    requires WaitsFor(s.clients[c], j) ==> s.net.calls[j].answers != map[]
    ensures LockPutOk(t, j)
  {
    var call := s.net.calls[j];
    if call.ask.PutAsk? && call.ask.key == s.key && call.ask.version == Cur(s) {
      var d :| 0 <= d < |s.clients| && WaitsFor(s.clients[d], j);
      assert WaitsFor(t.clients[d], j);
    }
  }

  lemma GoesInv(s: System, c: nat, at: Where)
    requires LockInv(s) && c < |s.clients| && (at == Held || at == Idle)
    requires s.clients[c].at in {AcqPut, RelPut} ==>
               s.clients[c].call < |s.net.calls| && s.net.calls[s.clients[c].call].answers != map[]
    requires at == Held <==> ValueIs(s, s.clients[c].id)
    ensures LockInv(Goes(s, c, at))
  {
    hide Inv;
    var t := Goes(s, c, at);
    forall j | 0 <= j < |t.net.calls| ensures LockPutOk(t, j) {
      StillWaited(s, t, c, j);
    }
    forall d | 0 <= d < |t.clients| ensures ClientOk(t, t.clients[d]) {
      assert ClientOk(s, s.clients[d]);
    }
  }

  /** The clerk's result is one of the server's answers. */
  lemma ResultIs(n: Net, j: nat)
    requires Inv(n) && j < |n.calls| && n.calls[j].result.Some?
    ensures var call := n.calls[j]; var r := call.result.value;
            && call.answers != map[]
            && (call.ask.GetAsk? ==>
                  Answered(call, r) && ReadOk(n.server.cache, call.ask.key, r))
            && (call.ask.PutAsk? ==> (r.err == OK ==> call.effects == 1))
  {
    var call := n.calls[j];
    assert CallOk(n.server.cache, call);
    assert call.attempts - 1 in call.answers;
  }

  lemma ResumeInv(s: System, c: nat)
    requires LockInv(s) && Allowed(s, Resume(c))
    ensures LockInv(Do(s, Resume(c)))
  {
    var me := s.clients[c];
    ResultIs(s.net, me.call);
    hide Inv;
    assert ClientOk(s, me);
    var r := s.net.calls[me.call].result.value;
    var (at, ask) := Next(me.at, s.key, me.id, r);
    hide LockInv;
    if ask.Some? { AsksInv(s, c, at, ask.value); } else { GoesInv(s, c, at); }
  }

  // ---- The network moves ---------------------------------------------------

  /** Bookkeeping that leaves the store, the answers and the effects alone. */
  lemma QuietInv(s: System, st: Step)
    requires LockInv(s) && Allowed(s, Network(st)) && !st.Serve?
    ensures LockInv(Do(s, Network(st)))
  {
    hide Inv, Handle, Takes;
    StepInv(s.net, st);
    var t := Do(s, Network(st));
    forall j | 0 <= j < |t.net.calls| ensures LockPutOk(t, j) {
      if j < |s.net.calls| { SameWaits(s, t, j); }
    }
    hide LockPutOk;
    forall d | 0 <= d < |t.clients| ensures ClientOk(t, t.clients[d]) {
      Called(s, s.clients[d]);
      ClientStays(s, t, s.clients[d]);
    }
  }

  lemma SameWaits(s: System, t: System, j: nat)
    requires j < |s.net.calls| <= |t.net.calls| && LockPutOk(s, j)
    requires t.net.calls[j].ask == s.net.calls[j].ask && t.key == s.key
    requires s.net.calls[j].ask.PutAsk? && s.net.calls[j].ask.key == s.key && t.net.calls[j].answers != map[] ==>
               s.net.calls[j].answers != map[] || s.net.calls[j].ask.version < Cur(t)
    requires Cur(s) <= Cur(t) && |t.clients| == |s.clients|
    requires forall d | 0 <= d < |s.clients| :: t.clients[d] == s.clients[d].(held := t.clients[d].held)
    ensures LockPutOk(t, j)
  {
    var call := s.net.calls[j];
    if call.ask.PutAsk? && call.ask.key == s.key && call.ask.version == Cur(t) {
      var d :| 0 <= d < |s.clients| && WaitsFor(s.clients[d], j);
      assert WaitsFor(t.clients[d], j);
    }
  }

  /** The reader is told the truth. */
  lemma ReaderOk(s: System, t: System, me: Client, i: nat, a: nat)
    requires ClientOk(s, me) && (me.at == AcqGet || me.at == RelGet) && me.call == i
    requires Inv(s.net) && Enabled(s.net, Serve(i, a)) && s.net.calls[i].ask.GetAsk?
    requires t.net == Apply(s.net, Serve(i, a)) && t.key == s.key
    ensures ClientOk(t, me)
  {
    GetAnswer(s.net, i);
    hide Inv;
  }

  lemma ServeGetInv(s: System, i: nat, a: nat)
    requires LockInv(s) && Allowed(s, Network(Serve(i, a))) && s.net.calls[i].ask.GetAsk?
    ensures LockInv(Do(s, Network(Serve(i, a))))
  {
    ServeInv(s.net, i, a);
    hide Inv;
    var t := Do(s, Network(Serve(i, a)));
    assert t.net.server.cache == s.net.server.cache && t.clients == s.clients;
    hide Handle;
    forall j | 0 <= j < |t.net.calls| ensures LockPutOk(t, j) {
      SameWaits(s, t, j);
    }
    hide LockPutOk, Takes;
    forall d | 0 <= d < |t.clients| ensures ClientOk(t, t.clients[d]) {
      var me := s.clients[d];
      Called(s, me);
      hide ClientOk;
      if (me.at == AcqGet || me.at == RelGet) && me.call == i {
        ReaderOk(s, t, me, i, a);
      } else {
        ClientStays(s, t, me);
      }
    }
  }

  /** No client of the lock waits for a Put on another key. */
  lemma NotLock(s: System, i: nat)
    requires LockInv(s) && i < |s.net.calls| && s.net.calls[i].ask.PutAsk? && s.net.calls[i].ask.key != s.key
    ensures forall d | 0 <= d < |s.clients| :: !WaitsFor(s.clients[d], i)
  {
    hide Inv;
    forall d | 0 <= d < |s.clients| ensures !WaitsFor(s.clients[d], i) {
      assert ClientOk(s, s.clients[d]);
    }
  }

  /** A Put that is refused, or that writes another key. */
  lemma ServePutInv(s: System, i: nat, a: nat)
    requires LockInv(s) && Allowed(s, Network(Serve(i, a))) && s.net.calls[i].ask.PutAsk?
    requires Takes(s.net.server, s.net.calls[i]) ==> s.net.calls[i].ask.key != s.key
    ensures LockInv(Do(s, Network(Serve(i, a))))
  {
    ServeInv(s.net, i, a);
    NeverCached(s.net, i);
    hide Inv;
    var t := Do(s, Network(Serve(i, a)));
    if s.net.calls[i].ask.key != s.key { NotLock(s, i); }
    assert SameLock(s, t) && t.clients == s.clients;
    assert LockPutOk(s, i);
    hide Handle;
    forall j | 0 <= j < |t.net.calls| ensures LockPutOk(t, j) {
      SameWaits(s, t, j);
    }
    hide LockPutOk;
    forall d | 0 <= d < |t.clients| ensures ClientOk(t, t.clients[d]) {
      assert ClientOk(s, s.clients[d]);
      assert Waits(s.clients[d].at) ==> s.clients[d].call != i || !Takes(s.net.server, s.net.calls[i]);
      ClientStays(s, t, s.clients[d]);
    }
  }

  /** The client whose Put is about to write the lock's key. */
  lemma Writer(s: System, i: nat) returns (c: nat)
    requires LockInv(s) && i < |s.net.calls| && Takes(s.net.server, s.net.calls[i])
    requires s.net.calls[i].ask.key == s.key
    ensures c < |s.clients| && WaitsFor(s.clients[c], i) && s.net.calls[i].ask.version == Cur(s)
    ensures s.clients[c].at == AcqPut ==> Free(s)
    ensures s.clients[c].at == RelPut ==> ValueIs(s, s.clients[c].id)
  {
    hide Inv;
    assert LockPutOk(s, i);
    c :| 0 <= c < |s.clients| && WaitsFor(s.clients[c], i);
    assert ClientOk(s, s.clients[c]);
  }

  /** Whoever does not wait for the write cannot be relying on the lock's value. */
  lemma Bystander(s: System, c: nat, d: nat, t: System, i: nat, a: nat)
    requires LockInv(s) && Allowed(s, Network(Serve(i, a))) && t == Do(s, Network(Serve(i, a)))
    requires Takes(s.net.server, s.net.calls[i]) && s.net.calls[i].ask.key == s.key
    requires c < |s.clients| && d < |s.clients| && d != c && WaitsFor(s.clients[c], i)
    requires s.clients[c].at == AcqPut ==> Free(s)
    requires s.clients[c].at == RelPut ==> ValueIs(s, s.clients[c].id)
    ensures ClientOk(t, t.clients[d])
  {
    hide Inv;
    var me := s.clients[d];
    assert ClientOk(s, me) && ClientOk(s, s.clients[c]);
    assert !ValueIs(s, me.id);
    assert Waits(me.at) ==> me.call != i;
    assert Cur(t) == Cur(s) + 1;
    assert WaitsFor(me, me.call) ==> LockPutOk(s, me.call);
  }

  lemma WriteInv(s: System, i: nat, a: nat)
    requires LockInv(s) && Allowed(s, Network(Serve(i, a)))
    requires Takes(s.net.server, s.net.calls[i]) && s.net.calls[i].ask.key == s.key
    ensures LockInv(Do(s, Network(Serve(i, a))))
  {
    hide Inv;
    ServeInv(s.net, i, a);
    var t := Do(s, Network(Serve(i, a)));
    var c := Writer(s, i);
    hide Handle;
    WriterOk(s, c, t, i, a);
    hide ClientOk, LockPutOk;
    forall d | 0 <= d < |t.clients| && d != c ensures ClientOk(t, t.clients[d]) {
      Bystander(s, c, d, t, i, a);
    }
    hide Distinct;
    WritePutsOk(s, t, i, a);
  }

  lemma WriterOk(s: System, c: nat, t: System, i: nat, a: nat)
    requires LockInv(s) && Allowed(s, Network(Serve(i, a))) && t == Do(s, Network(Serve(i, a)))
    requires Takes(s.net.server, s.net.calls[i]) && s.net.calls[i].ask.key == s.key
    requires c < |s.clients| && WaitsFor(s.clients[c], i)
    requires s.net.calls[i].ask.version == Cur(s)
    ensures ClientOk(t, t.clients[c])
  {
    assert CallOk(s.net.server.cache, s.net.calls[i]);
    hide Inv, LockPutOk, Distinct;
    assert ClientOk(s, s.clients[c]);
  }

  lemma WritePutsOk(s: System, t: System, i: nat, a: nat)
    requires LockInv(s) && Allowed(s, Network(Serve(i, a))) && t == Do(s, Network(Serve(i, a)))
    requires Takes(s.net.server, s.net.calls[i]) && s.net.calls[i].ask.key == s.key
    ensures forall j | 0 <= j < |t.net.calls| :: LockPutOk(t, j)
  {
    hide Inv, ClientOk, Distinct;
    assert LockPutOk(s, i);
    assert Cur(t) == Cur(s) + 1;
    hide Handle;
    forall j | 0 <= j < |t.net.calls| ensures LockPutOk(t, j) {
      SameWaits(s, t, j);
    }
  }

  lemma MoveInv(s: System, m: Move)
    requires LockInv(s) && Allowed(s, m)
    ensures LockInv(Do(s, m))
  {
    match m
    case Acquire(c) => Outside(s, c); AsksInv(s, c, AcqGet, GetAsk(s.key));
    case Release(c) => AsksInv(s, c, RelGet, GetAsk(s.key));
    case Resume(c) => ResumeInv(s, c);
    case Network(st) =>
      if !st.Serve? { QuietInv(s, st); }
      else if s.net.calls[st.i].ask.GetAsk? { ServeGetInv(s, st.i, st.a); }
      else if s.net.calls[st.i].ask.key == s.key && Takes(s.net.server, s.net.calls[st.i]) {
        WriteInv(s, st.i, st.a);
      }
      else { ServePutInv(s, st.i, st.a); }
  }

  lemma Outside(s: System, c: nat)
    requires LockInv(s) && c < |s.clients| && s.clients[c].at == Idle
    ensures !s.clients[c].held
  {
    assert ClientOk(s, s.clients[c]);
  }

  lemma {:induction false} LockRunInv(ss: seq<System>, k: nat)
    requires IsLockRun(ss) && k < |ss|
    ensures LockInv(ss[k])
  {
    hide LockInv, Do;
    if k == 0 {
      LockStart(ss[0]);
    } else {
      LockRunInv(ss, k - 1);
      assert MovesOn(ss, k - 1);
      var m :| Allowed(ss[k - 1], m) && ss[k] == Do(ss[k - 1], m);
      MoveInv(ss[k - 1], m);
    }
  }

  lemma LockStart(s: System)
    requires Init(s)
    ensures LockInv(s)
  {
    StartInv();
  }

  /**
   * Mutual exclusion, in every run and whatever the network does: at most one
   * client holds the lock, and while it does the key's value is its id.
   */
  lemma MutualExclusion(ss: seq<System>, k: nat, c: nat, d: nat)
    requires IsLockRun(ss) && k < |ss| && c < |ss[k].clients| && d < |ss[k].clients|
    requires ss[k].clients[c].held
    ensures ValueIs(ss[k], ss[k].clients[c].id)
    ensures ss[k].clients[d].held ==> c == d
  {
    LockRunInv(ss, k);
    assert ClientOk(ss[k], ss[k].clients[c]) && ClientOk(ss[k], ss[k].clients[d]);
  }

  /** Between its return from Acquire and its call of Release a client holds the lock. */
  lemma InsideHolds(ss: seq<System>, k: nat, c: nat)
    requires IsLockRun(ss) && k < |ss| && c < |ss[k].clients| && ss[k].clients[c].at == Held
    ensures ss[k].clients[c].held
  {
    LockRunInv(ss, k);
    assert ClientOk(ss[k], ss[k].clients[c]);
  }

  // ---- What Acquire and Release achieve ------------------------------------

  /** Outside Acquire and Release, the key holds a client's id exactly while it holds the lock. */
  lemma ValueTellsHolder(ss: seq<System>, k: nat, c: nat)
    requires IsLockRun(ss) && k < |ss| && c < |ss[k].clients|
    requires ss[k].clients[c].at == Idle || ss[k].clients[c].at == Held
    ensures ValueIs(ss[k], ss[k].clients[c].id) <==> ss[k].clients[c].at == Held
  {
    LockRunInv(ss, k);
    assert ClientOk(ss[k], ss[k].clients[c]);
  }

  /**
   * In every run, once a clerk's call has returned: after its Get, Acquire
   * returns exactly when the key holds the client's id, Release exactly when
   * it does not; after its Put, each returns only then.
   */
  lemma Returns(ss: seq<System>, k: nat, c: nat)
    requires IsLockRun(ss) && k < |ss| && Allowed(ss[k], Resume(c))
    ensures var s := ss[k]; var me := s.clients[c]; var at := Do(s, Resume(c)).clients[c].at;
            && (me.at == AcqGet ==> (at == Held <==> ValueIs(s, me.id)) && at in {Held, AcqPut, AcqGet})
            && (me.at == RelGet ==> (at == Idle <==> !ValueIs(s, me.id)) && at in {Idle, RelPut})
            && (me.at == AcqPut ==> at in {Held, AcqGet} && (at == Held ==> ValueIs(s, me.id)))
            && (me.at == RelPut ==> at in {Idle, RelGet} && (at == Idle ==> !ValueIs(s, me.id)))
  {
    LockRunInv(ss, k);
    var s := ss[k];
    ResultIs(s.net, s.clients[c].call);
    hide Inv, IsLockRun;
    assert ClientOk(s, s.clients[c]);
  }

  /** A Put of Release that has not taken effect will, as soon as it is served, and frees the lock. */
  lemma ReleaseWrites(ss: seq<System>, k: nat, c: nat, a: nat)
    requires IsLockRun(ss) && k < |ss| && c < |ss[k].clients| && ss[k].clients[c].at == RelPut
    requires Enabled(ss[k].net, Serve(ss[k].clients[c].call, a))
    requires ss[k].net.calls[ss[k].clients[c].call].effects == 0
    ensures Free(Do(ss[k], Network(Serve(ss[k].clients[c].call, a))))
  {
    LockRunInv(ss, k);
    var s := ss[k];
    var i := s.clients[c].call;
    assert ClientOk(s, s.clients[c]);
    NeverCached(s.net, i);
    hide IsLockRun, Inv;
  }

  /**
   * An Acquire that read the free lock and finds it unchanged waits for a Put
   * that takes the lock as soon as it is served.
   */
  lemma AcquireWrites(ss: seq<System>, k: nat, c: nat)
    requires IsLockRun(ss) && k < |ss| && Allowed(ss[k], Resume(c)) && ss[k].clients[c].at == AcqGet
    requires Free(ss[k])
    requires ss[k].net.calls[ss[k].clients[c].call].result.value == Read(ss[k].net.server.cache, ss[k].key)
    ensures var t := Do(ss[k], Resume(c));
            && t.clients[c].at == AcqPut && Enabled(t.net, Serve(t.clients[c].call, 0))
            && ValueIs(Do(t, Network(Serve(t.clients[c].call, 0))), t.clients[c].id)
  {
    LockRunInv(ss, k);
    var s := ss[k];
    var t := Do(s, Resume(c));
    assert ClientOk(s, s.clients[c]);
    MoveInv(s, Resume(c));
    NeverCached(t.net, t.clients[c].call);
    hide IsLockRun, Inv;
  }
}
