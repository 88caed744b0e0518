/** The single key/value server of kvsrv: versioned Put, one remembered reply per client. */
module VersionedKv {
  import opened Payload
  import opened KvMachine

  datatype PutArgs = PutArgs(key: string, value: string, version: nat, clientId: int, seqNum: int)
  datatype GetArgs = GetArgs(key: string, clientId: int, seqNum: int)

  /** A Put leaves value and version of its reply empty. */
  datatype Answer = Answer(value: string, version: nat, err: Err)

  datatype Dup = Dup(lastSeqNum: int, lastGet: Option<Answer>, lastPut: Option<Err>)

  datatype Server = Server(cache: Cache, clients: map<int, Dup>)

  // ---- The two handlers ----------------------------------------------------

  function VersionOf(cache: Cache, key: string): nat {
    if key in cache then cache[key].version else 0
  }

  /** Would a Put of this version be accepted now? */
  predicate Fits(cache: Cache, key: string, version: nat) {
    if key in cache then version == cache[key].version else version == 0
  }

  predicate GetCached(s: Server, a: GetArgs) {
    && a.clientId in s.clients && a.seqNum == s.clients[a.clientId].lastSeqNum
    && s.clients[a.clientId].lastGet.Some?
  }

  function Read(cache: Cache, key: string): Answer {
    if key in cache then Answer(cache[key].value, cache[key].version, OK) else Answer("", 0, ErrNoKey)
  }

  function Get(s: Server, a: GetArgs): (Server, Answer) {
    if GetCached(s, a) then (s, s.clients[a.clientId].lastGet.value)
    else
      var r := Read(s.cache, a.key);
      (s.(clients := s.clients[a.clientId := Dup(a.seqNum, Some(r), None)]), r)
  }

  /** The reply to this client's last number was OK and the Put would succeed again. */
  predicate PutCached(s: Server, a: PutArgs) {
    && a.clientId in s.clients && a.seqNum == s.clients[a.clientId].lastSeqNum
    && s.clients[a.clientId].lastPut == Some(OK)
    && Fits(s.cache, a.key, a.version)
  }

  predicate Effective(s: Server, a: PutArgs) {
    !PutCached(s, a) && Fits(s.cache, a.key, a.version)
  }

  function Put(s: Server, a: PutArgs): (Server, Err) {
    if PutCached(s, a) then (s, OK)
    else if Fits(s.cache, a.key, a.version) then
      (Server(s.cache[a.key := Pair(a.value, a.version + 1)],
              s.clients[a.clientId := Dup(a.seqNum, None, Some(OK))]), OK)
    else (s, if a.key in s.cache then ErrVersion else ErrNoKey)
  }

  // ---- The clerk -----------------------------------------------------------

  /** What a Put reports: ErrVersion is certain only from the first attempt. */
  function Verdict(attempt: nat, err: Err): Err {
    if err == ErrVersion && attempt > 0 then ErrMaybe else err
  }

  /** The first attempt that was answered; |calls| if none was. */
  function FirstAnswered<T>(calls: seq<Option<T>>): (k: nat)
    ensures k <= |calls| && (forall i | 0 <= i < k :: calls[i].None?)
    ensures k < |calls| ==> calls[k].Some?
  {
    if |calls| == 0 || calls[0].Some? then 0 else 1 + FirstAnswered(calls[1..])
  }
}
