/**
 * Raft on full, uncompacted logs.  Every server keeps the whole log from index
 * 0, and history variables record what elections, votes and acknowledgements
 * ever happened.  The concrete servers, whose logs are trimmed by snapshots,
 * are shown to follow these steps in module Refinement.
 */
module RaftSpec {
  import opened Payload
  import opened Quorums
  import opened RaftTypes

  /**
   * `term`/`vote` are the values in memory, `pterm`/`pvote` the saved ones.
   * The log is saved whenever it changes, so one copy suffices.  `base` is the
   * index covered by the saved snapshot, where `commit` restarts after a crash.
   */
  datatype Server = Server(
    log: Log, term: nat, vote: int, pterm: nat, pvote: int,
    role: Role, commit: nat, base: nat)

  /** A vote: for whom, and the voter's log when it was cast. */
  datatype Ballot = Ballot(cand: nat, log: Log)

  /** A won election and everything its leader has had in its log since. */
  datatype TermRec = TermRec(leader: nat, start: Log, voters: set<nat>, log: Log)

  datatype Spec = Spec(
    n: nat,
    servers: seq<Server>,
    cands: map<(nat, nat), Log>,       // (term, server): its log when it stood
    votes: map<(nat, nat), Ballot>,    // (term, voter)
    terms: map<nat, TermRec>,          // term: the election won in it
    acks: map<(nat, nat), nat>)        // (server, term): greatest index matched

  // ---- Logs ----------------------------------------------------------------

  /** The entry at i stands in its own term's leader log, with the same past. */
  ghost predicate InTerm(ts: map<nat, TermRec>, l: Log, i: nat)
    requires i < |l|
  {
    var t := l[i].term;
    t in ts && i < |ts[t].log| && l[..i + 1] == ts[t].log[..i + 1]
  }

  ghost predicate Shape(l: Log) {
    && |l| >= 1 && l[0] == Dummy
    && (forall i | 0 <= i < |l| :: l[i].index == i)
    && (forall i, k | 0 <= i <= k < |l| :: l[i].term <= l[k].term)
    && (forall i | 1 <= i < |l| :: l[i].command.Cmd?)
  }

  ghost predicate Wf(ts: map<nat, TermRec>, l: Log) {
    && Shape(l)
    && (forall i | 1 <= i < |l| :: InTerm(ts, l, i))
  }

  predicate Has(l: Log, t: nat, j: nat) {
    j < |l| && l[j].term == t
  }

  function LastTerm(l: Log): nat
    requires |l| >= 1
  {
    l[|l| - 1].term
  }

  /** The vote check: is the candidate's log at least as up to date? */
  predicate UpToDate(cand: Log, voter: Log)
    requires |cand| >= 1 && |voter| >= 1
  {
    || LastTerm(cand) > LastTerm(voter)
    || (LastTerm(cand) == LastTerm(voter) && |cand| >= |voter|)
  }

  // ---- Acknowledged and committed entries ----------------------------------

  predicate Acked(s: Spec, v: nat, t: nat, j: nat) {
    (v, t) in s.acks && s.acks[(v, t)] >= j
  }

  ghost function AckSet(s: Spec, t: nat, j: nat): set<nat> {
    set v | v in Range(s.n) && Acked(s, v, t, j)
  }

  /** The commit rule: an entry of the leader's own term, held by a majority. */
  ghost predicate Committed(s: Spec, t: nat, j: nat) {
    && t in s.terms
    && 1 <= j && Has(s.terms[t].log, t, j)
    && IsQuorum(s.n, AckSet(s, t, j))
  }

  /** l ends at or before some committed entry of a term no later than t. */
  ghost predicate Agreed(s: Spec, l: Log, t: nat) {
    || l == [Dummy]
    || exists u: nat, j: nat ::
         && Committed(s, u, j) && u <= t
         && 1 <= |l| <= j + 1 && l == s.terms[u].log[..|l|]
  }

  ghost predicate AgreedTo(s: Spec, l: Log, c: nat, t: nat) {
    c < |l| && Agreed(s, l[..c + 1], t)
  }

  /**
   * The entry (t, j) is in l, or a leader elected after t and before hi did
   * not have it.
   */
  ghost predicate Preserved(s: Spec, t: nat, j: nat, l: Log, hi: nat) {
    || Has(l, t, j)
    || exists x: nat :: t < x < hi && x in s.terms && !Has(s.terms[x].log, t, j)
  }

  // ---- Invariants ----------------------------------------------------------

  ghost predicate TermsOk(s: Spec) {
    forall t | t in s.terms :: TermOk(s, t, s.terms[t])
  }

  ghost predicate TermOk(s: Spec, t: nat, r: TermRec) {
    && t >= 1
    && r.leader < s.n
    && (t, r.leader) in s.cands && s.cands[(t, r.leader)] == r.start
    && IsQuorum(s.n, r.voters)
    && (forall v | v in r.voters :: (t, v) in s.votes && s.votes[(t, v)].cand == r.leader)
    && Wf(s.terms, r.log)
    && |r.start| <= |r.log| && r.start == r.log[..|r.start|]
    && (forall i | 0 <= i < |r.start| :: r.start[i].term < t)
    && (forall i | |r.start| <= i < |r.log| :: r.log[i].term == t)
  }

  ghost predicate CandsOk(s: Spec) {
    forall u, c | (u, c) in s.cands ::
      1 <= u && c < |s.servers| && u <= s.servers[c].pterm && Wf(s.terms, s.cands[(u, c)])
  }

  ghost predicate VotesOk(s: Spec) {
    forall u, v | (u, v) in s.votes :: VoteOk(s, u, v, s.votes[(u, v)])
  }

  ghost predicate VoteOk(s: Spec, u: nat, v: nat, b: Ballot) {
    && v < |s.servers|
    && Wf(s.terms, b.log)
    && (u, b.cand) in s.cands
    && |s.cands[(u, b.cand)]| >= 1
    && UpToDate(s.cands[(u, b.cand)], b.log)
    && u <= s.servers[v].pterm
    && (u == s.servers[v].pterm ==> s.servers[v].pvote == b.cand)
  }

  ghost predicate AcksOk(s: Spec) {
    forall v, t | (v, t) in s.acks ::
      v < |s.servers| && t in s.terms && s.acks[(v, t)] < |s.terms[t].log|
  }

  /** What a server acknowledged it still has, unless a later leader lacked it. */
  ghost predicate AcksKept(s: Spec) {
    forall v: nat, t: nat, j: nat | Acked(s, v, t, j) && Entry(s, t, j) ::
      v < |s.servers| ==> Preserved(s, t, j, s.servers[v].log, s.servers[v].pterm + 1)
  }

  /** (t, j) is an entry the leader of t appended itself. */
  ghost predicate Entry(s: Spec, t: nat, j: nat) {
    t in s.terms && 1 <= j && Has(s.terms[t].log, t, j)
  }

  /** ... and still had it whenever it cast a vote that may count. */
  ghost predicate AcksVoted(s: Spec) {
    forall v: nat, t: nat, j: nat, u: nat | Acked(s, v, t, j) && Entry(s, t, j) && Counts(s, u, v) && t < u ::
      Preserved(s, t, j, s.votes[(u, v)].log, u)
  }

  ghost predicate Counts(s: Spec, u: nat, v: nat) {
    (u, v) in s.votes && (u in s.terms ==> v in s.terms[u].voters)
  }

  ghost predicate ServerOk(s: Spec, i: nat, r: Server) {
    && Wf(s.terms, r.log)
    && LastTerm(r.log) <= r.pterm <= r.term
    && (r.pterm == r.term ==> r.vote == r.pvote)
    && (r.pterm < r.term ==> r.vote == -1)
    && (r.role == Candidate ==>
          && r.pterm == r.term
          && (r.term, i) in s.cands && s.cands[(r.term, i)] == r.log
          && (r.term in s.terms ==> s.terms[r.term].leader != i))
    && (r.role == Leader ==>
          && r.pterm == r.term
          && r.term in s.terms && s.terms[r.term].leader == i
          && s.terms[r.term].log == r.log)
    && r.base <= r.commit
    && AgreedTo(s, r.log, r.commit, r.term)
    && AgreedTo(s, r.log, r.base, r.pterm)
  }

  ghost predicate ServersOk(s: Spec) {
    |s.servers| == s.n && forall i | 0 <= i < s.n :: ServerOk(s, i, s.servers[i])
  }

  ghost predicate Inv(s: Spec) {
    && ServersOk(s)
    && TermsOk(s) && CandsOk(s) && VotesOk(s)
    && AcksOk(s) && AcksKept(s) && AcksVoted(s)
  }

  // ---- Steps ---------------------------------------------------------------

  function Fresh(): Server {
    Server([Dummy], 0, -1, 0, -1, Follower, 0, 0)
  }

  predicate Init(s: Spec) {
    && |s.servers| == s.n && (forall i | 0 <= i < s.n :: s.servers[i] == Fresh())
    && s.cands == map[] && s.votes == map[] && s.terms == map[] && s.acks == map[]
  }

  function Put(s: Spec, v: nat, r: Server): Spec
    requires v < |s.servers|
  {
    s.(servers := s.servers[v := r])
  }

  /** Note an acknowledgement; the greatest index wins. */
  function Ack(s: Spec, v: nat, t: nat, j: nat): Spec {
    s.(acks := s.acks[(v, t) := if Acked(s, v, t, j) then s.acks[(v, t)] else j])
  }

  function Raise(s: Spec, v: nat, t: nat): Spec
    requires v < |s.servers|
  {
    Put(s, v, s.servers[v].(term := t, vote := -1, role := Follower))
  }

  function Save(s: Spec, v: nat): Spec
    requires v < |s.servers|
  {
    Put(s, v, s.servers[v].(pterm := s.servers[v].term, pvote := s.servers[v].vote))
  }

  function StepDown(s: Spec, v: nat): Spec
    requires v < |s.servers|
  {
    Put(s, v, s.servers[v].(role := Follower))
  }

  /** Stand for election in the next term, voting for oneself. */
  function Stand(s: Spec, c: nat): Spec
    requires c < |s.servers|
  {
    var r := s.servers[c];
    var u := r.term + 1;
    Put(s, c, r.(term := u, vote := c, pterm := u, pvote := c, role := Candidate))
      .(cands := s.cands[(u, c) := r.log], votes := s.votes[(u, c) := Ballot(c, r.log)])
  }

  /** A crash after the new term of an election is saved and before the vote is. */
  function Torn(s: Spec, c: nat): Spec
    requires c < |s.servers|
  {
    var r := s.servers[c];
    Put(s, c, r.(term := r.term + 1, pterm := r.term + 1, pvote := r.vote,
                 role := Follower, commit := r.base))
  }

  predicate CanGrant(s: Spec, v: nat, c: nat) {
    && v < |s.servers|
    && (s.servers[v].term, c) in s.cands
    && |s.cands[(s.servers[v].term, c)]| >= 1 && |s.servers[v].log| >= 1
    && (s.servers[v].vote == -1 || s.servers[v].vote == c)
    && UpToDate(s.cands[(s.servers[v].term, c)], s.servers[v].log)
  }

  function Grant(s: Spec, v: nat, c: nat): Spec
    requires CanGrant(s, v, c)
  {
    var r := s.servers[v];
    Put(s, v, r.(vote := c, pterm := r.term, pvote := c))
      .(votes := if (r.term, v) in s.votes then s.votes else s.votes[(r.term, v) := Ballot(c, r.log)])
  }

  ghost predicate CanLead(s: Spec, c: nat, q: set<nat>) {
    && c < |s.servers| && s.servers[c].role == Candidate
    && IsQuorum(s.n, q)
    && (forall v | v in q :: (s.servers[c].term, v) in s.votes && s.votes[(s.servers[c].term, v)].cand == c)
  }

  function Lead(s: Spec, c: nat, q: set<nat>): Spec
    requires c < |s.servers| && |s.servers[c].log| >= 1
  {
    var r := s.servers[c];
    Ack(Put(s, c, r.(role := Leader)).(terms := s.terms[r.term := TermRec(c, r.log, q, r.log)]),
        c, r.term, |r.log| - 1)
  }

  function Append(s: Spec, c: nat, cmd: Command): Spec
    requires c < |s.servers| && s.servers[c].term in s.terms
  {
    var r := s.servers[c];
    var l := r.log + [LogEntry(cmd, r.term, |r.log|)];
    Ack(Put(s, c, r.(log := l)).(terms := s.terms[r.term := s.terms[r.term].(log := l)]),
        c, r.term, |r.log|)
  }

  /** Take over the current leader's log up to index `end`, and acknowledge it. */
  function Accept(s: Spec, v: nat, end: nat): Spec
    requires v < |s.servers| && s.servers[v].term in s.terms
    requires end < |s.terms[s.servers[v].term].log|
  {
    var r := s.servers[v];
    var l := s.terms[r.term].log;
    Ack(if Has(r.log, l[end].term, end) then s
        else Put(s, v, r.(log := l[..end + 1], pterm := r.term, pvote := r.vote)),
        v, r.term, end)
  }

  function Learn(s: Spec, v: nat, c: nat): Spec
    requires v < |s.servers|
  {
    Put(s, v, s.servers[v].(commit := c))
  }

  function Compact(s: Spec, v: nat, b: nat): Spec
    requires v < |s.servers|
  {
    var r := s.servers[v];
    Put(s, v, r.(base := b, pterm := r.term, pvote := r.vote))
  }

  function Restart(s: Spec, v: nat): Spec
    requires v < |s.servers|
  {
    var r := s.servers[v];
    Put(s, v, r.(term := r.pterm, vote := r.pvote, role := Follower, commit := r.base))
  }

  // ---- History only grows --------------------------------------------------

  ghost predicate Grows(t: nat, a: TermRec, b: TermRec) {
    && a.leader == b.leader && a.start == b.start && a.voters == b.voters
    && |a.log| <= |b.log| && a.log == b.log[..|a.log|]
    && (forall i | |a.log| <= i < |b.log| :: b.log[i].term == t)
  }

  ghost predicate Ext(a: Spec, b: Spec) {
    && a.n == b.n && |a.servers| == |b.servers|
    && (forall k | k in a.cands :: k in b.cands && a.cands[k] == b.cands[k])
    && (forall k | k in a.votes :: k in b.votes && a.votes[k] == b.votes[k])
    && (forall t | t in a.terms :: t in b.terms && Grows(t, a.terms[t], b.terms[t]))
    && (forall k | k in a.acks :: k in b.acks && a.acks[k] <= b.acks[k])
  }
}
