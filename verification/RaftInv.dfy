/** Every step of the specification keeps the invariant and only adds history. */
module RaftInv {
  import opened Payload
  import opened Quorums
  import opened RaftTypes
  import opened RaftSpec
  import opened RaftHistory

  // ---- Replacing one server's state, history unchanged ---------------------

  ghost predicate Later(o: Server, r: Server) {
    r.pterm > o.pterm || (r.pterm == o.pterm && r.pvote == o.pvote)
  }

  ghost predicate KeepsAcks(s: Spec, v: nat, r: Server) {
    forall t: nat, j: nat | Acked(s, v, t, j) && Entry(s, t, j) ::
      Preserved(s, t, j, r.log, r.pterm + 1)
  }

  lemma SameLogKeepsAcks(s: Spec, v: nat, r: Server)
    requires AcksKept(s) && v < |s.servers|
    requires r.log == s.servers[v].log && r.pterm >= s.servers[v].pterm
    ensures KeepsAcks(s, v, r)
  {
    forall t: nat, j: nat | Acked(s, v, t, j) && Entry(s, t, j)
      ensures Preserved(s, t, j, r.log, r.pterm + 1)
    {
      assert Preserved(s, t, j, s.servers[v].log, s.servers[v].pterm + 1);
    }
  }

  lemma PutExt(s: Spec, v: nat, r: Server)
    requires v < |s.servers|
    ensures Ext(s, Put(s, v, r))
  {
  }

  lemma ServerOkExt(a: Spec, b: Spec, i: nat, r: Server)
    requires Ext(a, b) && ServerOk(a, i, r)
    requires r.role == Leader ==> b.terms[r.term].log == r.log
    requires r.role == Candidate && r.term in b.terms ==> b.terms[r.term].leader != i
    ensures ServerOk(b, i, r)
  {
    WfExt(a, b, r.log);
    AgreedToExt(a, b, r.log, r.commit, r.term, r.term);
    AgreedToExt(a, b, r.log, r.base, r.pterm, r.pterm);
    if r.role == Leader { assert Grows(r.term, a.terms[r.term], b.terms[r.term]); }
  }

  lemma PutServers(a: Spec, v: nat, r: Server)
    requires ServersOk(a) && v < |a.servers| && ServerOk(a, v, r)
    ensures ServersOk(Put(a, v, r))
  {
    var b := Put(a, v, r);
    PutExt(a, v, r);
    forall i | 0 <= i < b.n ensures ServerOk(b, i, b.servers[i]) {
      assert ServerOk(a, i, b.servers[i]);
      ServerOkExt(a, b, i, b.servers[i]);
    }
  }

  lemma PutElections(a: Spec, v: nat, r: Server)
    requires TermsOk(a) && CandsOk(a) && VotesOk(a)
    requires v < |a.servers| && Later(a.servers[v], r)
    ensures var b := Put(a, v, r); TermsOk(b) && CandsOk(b) && VotesOk(b)
  {
    var b := Put(a, v, r);
    forall t | t in b.terms ensures TermOk(b, t, b.terms[t]) {
      assert TermOk(a, t, a.terms[t]);
    }
    forall u, w | (u, w) in b.votes ensures VoteOk(b, u, w, b.votes[(u, w)]) {
      assert VoteOk(a, u, w, a.votes[(u, w)]);
    }
  }

  lemma PutAcks(a: Spec, v: nat, r: Server)
    requires AcksOk(a) && AcksKept(a) && AcksVoted(a)
    requires v < |a.servers| && KeepsAcks(a, v, r)
    ensures var b := Put(a, v, r); AcksOk(b) && AcksKept(b) && AcksVoted(b)
  {
    var b := Put(a, v, r);
    PutExt(a, v, r);
    forall w: nat, t: nat, j: nat | Acked(b, w, t, j) && Entry(b, t, j) && w < |b.servers|
      ensures Preserved(b, t, j, b.servers[w].log, b.servers[w].pterm + 1)
    {
      assert Acked(a, w, t, j) && Entry(a, t, j);
      PreservedExt(a, b, t, j, b.servers[w].log, b.servers[w].pterm + 1);
    }
    forall w: nat, t: nat, j: nat, u: nat |
      Acked(b, w, t, j) && Entry(b, t, j) && Counts(b, u, w) && t < u
      ensures Preserved(b, t, j, b.votes[(u, w)].log, u)
    {
      assert Acked(a, w, t, j) && Entry(a, t, j) && Counts(a, u, w);
      PreservedExt(a, b, t, j, b.votes[(u, w)].log, u);
    }
  }

  lemma PutInv(a: Spec, v: nat, r: Server)
    requires Inv(a) && v < |a.servers|
    requires ServerOk(a, v, r) && Later(a.servers[v], r) && KeepsAcks(a, v, r)
    ensures Inv(Put(a, v, r)) && Ext(a, Put(a, v, r))
  {
    PutExt(a, v, r);
    PutServers(a, v, r);
    PutElections(a, v, r);
    PutAcks(a, v, r);
  }

  /** For a server that keeps its log. */
  lemma PutSameLog(a: Spec, v: nat, r: Server)
    requires Inv(a) && v < |a.servers|
    requires ServerOk(a, v, r) && Later(a.servers[v], r) && r.log == a.servers[v].log
    ensures Inv(Put(a, v, r)) && Ext(a, Put(a, v, r))
  {
    SameLogKeepsAcks(a, v, r);
    PutInv(a, v, r);
  }

  // ---- Steps that only change a server -------------------------------------

  lemma AgreedLater(s: Spec, l: Log, c: nat, t: nat, t': nat)
    requires AgreedTo(s, l, c, t) && t <= t'
    ensures AgreedTo(s, l, c, t')
  {
    ExtRefl(s);
    AgreedToExt(s, s, l, c, t, t');
  }

  lemma RaiseInv(s: Spec, v: nat, t: nat)
    requires Inv(s) && v < |s.servers| && s.servers[v].term < t
    ensures Inv(Raise(s, v, t)) && Ext(s, Raise(s, v, t))
  {
    var o := s.servers[v];
    assert ServerOk(s, v, o);
    AgreedLater(s, o.log, o.commit, o.term, t);
    PutSameLog(s, v, o.(term := t, vote := -1, role := Follower));
  }

  lemma SaveInv(s: Spec, v: nat)
    requires Inv(s) && v < |s.servers|
    ensures Inv(Save(s, v)) && Ext(s, Save(s, v))
  {
    var o := s.servers[v];
    assert ServerOk(s, v, o);
    AgreedLater(s, o.log, o.base, o.pterm, o.term);
    PutSameLog(s, v, o.(pterm := o.term, pvote := o.vote));
  }

  lemma StepDownInv(s: Spec, v: nat)
    requires Inv(s) && v < |s.servers|
    ensures Inv(StepDown(s, v)) && Ext(s, StepDown(s, v))
  {
    assert ServerOk(s, v, s.servers[v]);
    PutSameLog(s, v, s.servers[v].(role := Follower));
  }

  lemma LearnInv(s: Spec, v: nat, c: nat)
    requires Inv(s) && v < |s.servers| && s.servers[v].commit <= c
    requires AgreedTo(s, s.servers[v].log, c, s.servers[v].term)
    ensures Inv(Learn(s, v, c)) && Ext(s, Learn(s, v, c))
  {
    assert ServerOk(s, v, s.servers[v]);
    PutSameLog(s, v, s.servers[v].(commit := c));
  }

  /** A prefix of an agreed log is agreed. */
  lemma AgreedPrefix(s: Spec, l: Log, b: nat, c: nat, t: nat)
    requires b <= c && AgreedTo(s, l, c, t) && l[0] == Dummy
    ensures AgreedTo(s, l, b, t)
  {
    var m := l[..c + 1];
    assert l[..b + 1] == m[..b + 1];
    if m != [Dummy] {
      var u: nat, j: nat :|
        Committed(s, u, j) && u <= t && 1 <= |m| <= j + 1 && m == s.terms[u].log[..|m|];
      assert l[..b + 1] == s.terms[u].log[..b + 1];
    }
  }

  lemma CompactInv(s: Spec, v: nat, b: nat)
    requires Inv(s) && v < |s.servers| && s.servers[v].base <= b <= s.servers[v].commit
    ensures Inv(Compact(s, v, b)) && Ext(s, Compact(s, v, b))
  {
    var o := s.servers[v];
    assert ServerOk(s, v, o);
    AgreedPrefix(s, o.log, b, o.commit, o.term);
    PutSameLog(s, v, o.(base := b, pterm := o.term, pvote := o.vote));
  }

  lemma RestartInv(s: Spec, v: nat)
    requires Inv(s) && v < |s.servers|
    ensures Inv(Restart(s, v)) && Ext(s, Restart(s, v))
  {
    var o := s.servers[v];
    assert ServerOk(s, v, o);
    PutSameLog(s, v, o.(term := o.pterm, vote := o.pvote, role := Follower, commit := o.base));
  }

  lemma TornOk(s: Spec, c: nat, o: Server) returns (r: Server)
    requires ServerOk(s, c, o)
    ensures r == o.(term := o.term + 1, pterm := o.term + 1, pvote := o.vote,
                    role := Follower, commit := o.base)
    ensures ServerOk(s, c, r)
  {
    r := o.(term := o.term + 1, pterm := o.term + 1, pvote := o.vote,
            role := Follower, commit := o.base);
    AgreedLater(s, o.log, o.base, o.pterm, o.term + 1);
  }

  lemma TornInv(s: Spec, c: nat)
    requires Inv(s) && c < |s.servers|
    ensures Inv(Torn(s, c)) && Ext(s, Torn(s, c))
  {
    var o := s.servers[c];
    assert ServerOk(s, c, o);
    var r := TornOk(s, c, o);
    assert Later(o, r);
    assert Torn(s, c) == Put(s, c, r);
    PutSameLog(s, c, r);
  }

  // ---- Elections -----------------------------------------------------------

  lemma StandExt(s: Spec, c: nat)
    requires CandsOk(s) && VotesOk(s) && c < |s.servers|
    requires s.servers[c].pterm <= s.servers[c].term
    ensures Ext(s, Stand(s, c))
    ensures (s.servers[c].term + 1, c) !in s.cands && (s.servers[c].term + 1, c) !in s.votes
  {
  }

  /** A term nobody stood in, at this server, was not won by it. */
  lemma NotYetLeader(s: Spec, u: nat, c: nat)
    requires TermsOk(s) && (u, c) !in s.cands
    ensures u in s.terms ==> s.terms[u].leader != c
  {
    if u in s.terms { assert TermOk(s, u, s.terms[u]); }
  }

  lemma StandServers(a: Spec, c: nat)
    requires ServersOk(a) && TermsOk(a) && CandsOk(a) && VotesOk(a) && c < |a.servers|
    ensures ServersOk(Stand(a, c))
  {
    var b := Stand(a, c);
    assert ServerOk(a, c, a.servers[c]);
    StandExt(a, c);
    StandOne(a, c);
    forall i | 0 <= i < b.n && i != c ensures ServerOk(b, i, b.servers[i]) {
      StandOther(a, c, i);
    }
  }

  lemma StandOther(a: Spec, c: nat, i: nat)
    requires c < |a.servers| && i < |a.servers| && i != c && ServerOk(a, i, a.servers[i])
    requires Ext(a, Stand(a, c))
    ensures ServerOk(Stand(a, c), i, a.servers[i])
  {
    hide Ext, Wf, AgreedTo;
    ServerOkExt(a, Stand(a, c), i, a.servers[i]);
  }

  lemma StandOne(a: Spec, c: nat)
    requires TermsOk(a) && CandsOk(a) && c < |a.servers| && ServerOk(a, c, a.servers[c])
    requires Ext(a, Stand(a, c))
    ensures ServerOk(Stand(a, c), c, Stand(a, c).servers[c])
  {
    var b, o := Stand(a, c), a.servers[c];
    NotYetLeader(a, o.term + 1, c);
    hide TermsOk, Ext, Wf, AgreedTo;
    WfExt(a, b, o.log);
    AgreedToExt(a, b, o.log, o.commit, o.term, o.term + 1);
    AgreedToExt(a, b, o.log, o.base, o.pterm, o.term + 1);
  }

  lemma StandElections(a: Spec, c: nat)
    requires TermsOk(a) && CandsOk(a) && VotesOk(a) && c < |a.servers|
    requires ServerOk(a, c, a.servers[c])
    ensures var b := Stand(a, c); TermsOk(b) && CandsOk(b) && VotesOk(b)
  {
    var b := Stand(a, c);
    StandExt(a, c);
    forall t | t in b.terms ensures TermOk(b, t, b.terms[t]) {
      assert TermOk(a, t, a.terms[t]);
    }
    forall u, w | (u, w) in b.votes ensures VoteOk(b, u, w, b.votes[(u, w)]) {
      if (u, w) in a.votes { assert VoteOk(a, u, w, a.votes[(u, w)]); }
    }
  }

  /** A vote just cast is the voter's own log, so what it acknowledged is kept. */
  lemma VoteKeeps(a: Spec, b: Spec, v: nat, u: nat)
    requires AcksKept(a) && AcksVoted(a) && AcksOk(a) && Ext(a, b) && a.acks == b.acks && a.terms == b.terms
    requires v < |a.servers| && a.servers[v].pterm <= u
    requires (u, v) in b.votes && (u in a.terms ==> v !in a.terms[u].voters)
    requires b.votes == a.votes[(u, v) := Ballot(b.votes[(u, v)].cand, a.servers[v].log)]
    ensures AcksVoted(b)
  {
    forall w: nat, t: nat, j: nat, x: nat |
      Acked(b, w, t, j) && Entry(b, t, j) && Counts(b, x, w) && t < x
      ensures Preserved(b, t, j, b.votes[(x, w)].log, x)
    {
      assert Acked(a, w, t, j) && Entry(a, t, j);
      if (x, w) == (u, v) {
        assert Preserved(a, t, j, a.servers[v].log, a.servers[v].pterm + 1);
        assert Preserved(a, t, j, a.servers[v].log, u);
      } else {
        assert Counts(a, x, w);
      }
      PreservedExt(a, b, t, j, b.votes[(x, w)].log, x);
    }
  }

  // ---- Acknowledgements when logs and history grow -------------------------

  ghost predicate ServersGrow(a: Spec, b: Spec) {
    && |a.servers| == |b.servers|
    && forall i | 0 <= i < |a.servers| ::
         && a.servers[i].log <= b.servers[i].log
         && a.servers[i].pterm <= b.servers[i].pterm
  }

  lemma PreservedMore(s: Spec, t: nat, j: nat, l: Log, l': Log, hi: nat, hi': nat)
    requires Preserved(s, t, j, l, hi) && l <= l' && hi <= hi'
    ensures Preserved(s, t, j, l', hi')
  {
  }

  lemma AcksKeptGrow(a: Spec, b: Spec)
    requires Ext(a, b) && a.acks == b.acks && ServersGrow(a, b)
    requires AcksOk(a) && AcksKept(a)
    ensures AcksOk(b) && AcksKept(b)
  {
    forall v, t | (v, t) in b.acks
      ensures v < |b.servers| && t in b.terms && b.acks[(v, t)] < |b.terms[t].log|
    {
      assert Grows(t, a.terms[t], b.terms[t]);
    }
    forall v: nat, t: nat, j: nat | Acked(b, v, t, j) && Entry(b, t, j) && v < |b.servers|
      ensures Preserved(b, t, j, b.servers[v].log, b.servers[v].pterm + 1)
    {
      assert Acked(a, v, t, j);
      EntryBack(a, b, t, j);
      PreservedExt(a, b, t, j, a.servers[v].log, a.servers[v].pterm + 1);
      PreservedMore(b, t, j, a.servers[v].log, b.servers[v].log,
                    a.servers[v].pterm + 1, b.servers[v].pterm + 1);
    }
  }

  lemma AcksVotedGrow(a: Spec, b: Spec)
    requires Ext(a, b) && a.acks == b.acks
    requires AcksOk(a) && AcksVoted(a)
    requires forall u: nat, v: nat | Counts(b, u, v) :: Counts(a, u, v)
    ensures AcksVoted(b)
  {
    forall v: nat, t: nat, j: nat, u: nat |
      Acked(b, v, t, j) && Entry(b, t, j) && Counts(b, u, v) && t < u
      ensures Preserved(b, t, j, b.votes[(u, v)].log, u)
    {
      assert Acked(a, v, t, j) && Counts(a, u, v);
      EntryBack(a, b, t, j);
      PreservedExt(a, b, t, j, a.votes[(u, v)].log, u);
    }
  }

  lemma StandInv(s: Spec, c: nat)
    requires Inv(s) && c < |s.servers|
    ensures Inv(Stand(s, c)) && Ext(s, Stand(s, c))
  {
    var b := Stand(s, c);
    assert ServerOk(s, c, s.servers[c]);
    StandExt(s, c);
    StandServers(s, c);
    StandElections(s, c);
    AcksKeptGrow(s, b);
    NoVoteNoVoter(s, s.servers[c].term + 1, c);
    VoteKeeps(s, b, c, s.servers[c].term + 1);
  }

  lemma NoVoteNoVoter(s: Spec, u: nat, v: nat)
    requires TermsOk(s) && (u, v) !in s.votes
    ensures u in s.terms ==> v !in s.terms[u].voters
  {
    if u in s.terms { assert TermOk(s, u, s.terms[u]); }
  }

  // ---- Granting a vote -----------------------------------------------------

  lemma GrantOk(s: Spec, v: nat, c: nat, o: Server) returns (r: Server)
    requires ServerOk(s, v, o) && (o.vote == -1 || o.vote == c)
    ensures r == o.(vote := c, pterm := o.term, pvote := c)
    ensures ServerOk(s, v, r)
  {
    r := o.(vote := c, pterm := o.term, pvote := c);
    AgreedLater(s, o.log, o.base, o.pterm, o.term);
  }

  lemma GrantServers(a: Spec, v: nat, c: nat)
    requires ServersOk(a) && CanGrant(a, v, c)
    requires Ext(a, Grant(a, v, c))
    ensures ServersOk(Grant(a, v, c))
  {
    var b := Grant(a, v, c);
    assert ServerOk(a, v, a.servers[v]);
    var r := GrantOk(a, v, c, a.servers[v]);
    forall i | 0 <= i < b.n ensures ServerOk(b, i, b.servers[i]) {
      assert ServerOk(a, i, a.servers[i]);
      ServerOkExt(a, b, i, b.servers[i]);
    }
  }

  lemma GrantElections(a: Spec, v: nat, c: nat)
    requires TermsOk(a) && CandsOk(a) && VotesOk(a)
    requires CanGrant(a, v, c) && ServerOk(a, v, a.servers[v])
    requires (a.servers[v].term, v) !in a.votes
    ensures var b := Grant(a, v, c); TermsOk(b) && CandsOk(b) && VotesOk(b)
  {
    hide Wf, AgreedTo, IsQuorum;
    var b := Grant(a, v, c);
    forall t | t in b.terms ensures TermOk(b, t, b.terms[t]) {
      assert TermOk(a, t, a.terms[t]);
    }
    hide TermOk;
    forall u, w | (u, w) in b.votes ensures VoteOk(b, u, w, b.votes[(u, w)]) {
      if (u, w) in a.votes { assert VoteOk(a, u, w, a.votes[(u, w)]); }
    }
  }

  /** A vote already on record was for the same candidate. */
  lemma SameVote(s: Spec, v: nat, c: nat)
    requires VotesOk(s) && CanGrant(s, v, c) && ServerOk(s, v, s.servers[v])
    requires (s.servers[v].term, v) in s.votes
    ensures s.votes[(s.servers[v].term, v)].cand == c
    ensures Grant(s, v, c) == s
  {
    var r := s.servers[v];
    assert VoteOk(s, r.term, v, s.votes[(r.term, v)]);
    assert r.pterm == r.term && r.vote == r.pvote == c;
    assert Grant(s, v, c).servers == s.servers;
  }

  lemma GrantExt(s: Spec, v: nat, c: nat)
    requires CanGrant(s, v, c)
    ensures Ext(s, Grant(s, v, c))
  {
  }

  lemma GrantAcks(s: Spec, v: nat, c: nat)
    requires TermsOk(s) && AcksOk(s) && AcksKept(s) && AcksVoted(s)
    requires CanGrant(s, v, c) && s.servers[v].pterm <= s.servers[v].term
    requires (s.servers[v].term, v) !in s.votes
    ensures var b := Grant(s, v, c); AcksOk(b) && AcksKept(b) && AcksVoted(b)
  {
    var b := Grant(s, v, c);
    var u := s.servers[v].term;
    GrantExt(s, v, c);
    AcksKeptGrow(s, b);
    NoVoteNoVoter(s, u, v);
    VoteKeeps(s, b, v, u);
  }

  lemma GrantNew(s: Spec, v: nat, c: nat)
    requires Inv(s) && CanGrant(s, v, c) && (s.servers[v].term, v) !in s.votes
    ensures Inv(Grant(s, v, c)) && Ext(s, Grant(s, v, c))
  {
    assert ServerOk(s, v, s.servers[v]);
    GrantExt(s, v, c);
    GrantServers(s, v, c);
    GrantElections(s, v, c);
    GrantAcks(s, v, c);
  }

  lemma GrantOld(s: Spec, v: nat, c: nat)
    requires Inv(s) && CanGrant(s, v, c) && (s.servers[v].term, v) in s.votes
    ensures Grant(s, v, c) == s && s.votes[(s.servers[v].term, v)].cand == c
  {
    assert ServerOk(s, v, s.servers[v]);
    SameVote(s, v, c);
  }

  lemma GrantInv(s: Spec, v: nat, c: nat)
    requires Inv(s) && CanGrant(s, v, c)
    ensures Inv(Grant(s, v, c)) && Ext(s, Grant(s, v, c))
  {
    if (s.servers[v].term, v) in s.votes {
      GrantOld(s, v, c);
      ExtRefl(s);
    } else {
      GrantNew(s, v, c);
    }
  }

  lemma GrantRecorded(s: Spec, v: nat, c: nat)
    requires VotesOk(s) && CanGrant(s, v, c) && ServerOk(s, v, s.servers[v])
    ensures (s.servers[v].term, v) in Grant(s, v, c).votes
    ensures Grant(s, v, c).votes[(s.servers[v].term, v)].cand == c
  {
    if (s.servers[v].term, v) in s.votes { SameVote(s, v, c); }
  }

  // ---- Winning an election -------------------------------------------------

  /** Election safety: the term a candidate wins was not won before. */
  lemma TermUnwon(s: Spec, c: nat, q: set<nat>)
    requires TermsOk(s) && CanLead(s, c, q) && ServerOk(s, c, s.servers[c])
    ensures s.servers[c].term !in s.terms
  {
    var u := s.servers[c].term;
    if u in s.terms {
      assert TermOk(s, u, s.terms[u]);
      var v := QuorumsMeet(s.n, s.terms[u].voters, q);
      assert false;
    }
  }

  /** The state after an election is won, before the leader counts itself. */
  function Crown(s: Spec, c: nat, q: set<nat>): Spec
    requires c < |s.servers|
  {
    var r := s.servers[c];
    Put(s, c, r.(role := Leader)).(terms := s.terms[r.term := TermRec(c, r.log, q, r.log)])
  }

  lemma CrownTerm(s: Spec, c: nat, q: set<nat>)
    requires CandsOk(s) && CanLead(s, c, q) && ServerOk(s, c, s.servers[c])
    requires s.servers[c].term !in s.terms && Ext(s, Crown(s, c, q)) && |s.servers| == s.n
    ensures var b := Crown(s, c, q); TermOk(b, s.servers[c].term, b.terms[s.servers[c].term])
  {
    var r := s.servers[c];
    var b := Crown(s, c, q);
    WfExt(s, b, r.log);
    assert 1 <= r.term;
    forall i | 0 <= i < |r.log| ensures r.log[i].term < r.term {
      assert r.log[i].term <= LastTerm(r.log);
      if i >= 1 { assert InTerm(s.terms, r.log, i); }
    }
  }

  lemma CrownElections(a: Spec, c: nat, q: set<nat>)
    requires TermsOk(a) && CandsOk(a) && VotesOk(a)
    requires CanLead(a, c, q) && ServerOk(a, c, a.servers[c])
    requires a.servers[c].term !in a.terms && Ext(a, Crown(a, c, q)) && |a.servers| == a.n
    ensures var b := Crown(a, c, q); TermsOk(b) && CandsOk(b) && VotesOk(b)
  {
    CrownTerms(a, c, q);
    CrownVotes(a, c, q);
    hide Wf, AgreedTo, IsQuorum, Ext, TermsOk, VotesOk, ServerOk;
    var b := Crown(a, c, q);
    forall u, x | (u, x) in b.cands ensures Wf(b.terms, b.cands[(u, x)]) {
      WfExt(a, b, a.cands[(u, x)]);
    }
  }

  lemma CrownTerms(a: Spec, c: nat, q: set<nat>)
    requires TermsOk(a) && CandsOk(a) && CanLead(a, c, q) && ServerOk(a, c, a.servers[c])
    requires a.servers[c].term !in a.terms && Ext(a, Crown(a, c, q)) && |a.servers| == a.n
    ensures TermsOk(Crown(a, c, q))
  {
    CrownTerm(a, c, q);
    hide Wf, AgreedTo, IsQuorum, Ext, ServerOk;
    var b := Crown(a, c, q);
    forall t | t in b.terms && t != a.servers[c].term ensures TermOk(b, t, b.terms[t]) {
      assert TermOk(a, t, a.terms[t]);
      WfExt(a, b, a.terms[t].log);
    }
  }

  lemma CrownVotes(a: Spec, c: nat, q: set<nat>)
    requires VotesOk(a) && CanLead(a, c, q) && Ext(a, Crown(a, c, q))
    ensures VotesOk(Crown(a, c, q))
  {
    hide Wf, Ext, IsQuorum;
    var b := Crown(a, c, q);
    forall u, w | (u, w) in b.votes ensures VoteOk(b, u, w, b.votes[(u, w)]) {
      assert VoteOk(a, u, w, a.votes[(u, w)]);
      WfExt(a, b, a.votes[(u, w)].log);
    }
  }

  lemma CrownServers(a: Spec, c: nat, q: set<nat>)
    requires ServersOk(a) && CanLead(a, c, q)
    requires a.servers[c].term !in a.terms && Ext(a, Crown(a, c, q))
    ensures ServersOk(Crown(a, c, q))
  {
    var b := Crown(a, c, q);
    forall i | 0 <= i < b.n ensures ServerOk(b, i, b.servers[i]) {
      assert ServerOk(a, i, a.servers[i]);
      if i == c {
        var o := a.servers[c];
        ServerOkExt(a, b, i, o.(role := Follower));
      } else {
        ServerOkExt(a, b, i, a.servers[i]);
      }
    }
  }

  lemma CrownExt(s: Spec, c: nat, q: set<nat>)
    requires c < |s.servers| && s.servers[c].term !in s.terms
    ensures Ext(s, Crown(s, c, q))
    ensures forall u: nat, v: nat | Counts(Crown(s, c, q), u, v) :: Counts(s, u, v)
  {
  }

  lemma CrownAcks(s: Spec, c: nat, q: set<nat>)
    requires AcksOk(s) && AcksKept(s) && AcksVoted(s)
    requires c < |s.servers| && s.servers[c].term !in s.terms
    ensures var b := Crown(s, c, q); AcksOk(b) && AcksKept(b) && AcksVoted(b)
  {
    CrownExt(s, c, q);
    AcksKeptGrow(s, Crown(s, c, q));
    AcksVotedGrow(s, Crown(s, c, q));
  }

  lemma CrownInv(s: Spec, c: nat, q: set<nat>)
    requires Inv(s) && CanLead(s, c, q)
    ensures Inv(Crown(s, c, q)) && Ext(s, Crown(s, c, q))
  {
    assert ServerOk(s, c, s.servers[c]);
    TermUnwon(s, c, q);
    CrownExt(s, c, q);
    CrownServers(s, c, q);
    CrownElections(s, c, q);
    CrownAcks(s, c, q);
  }

  // ---- Acknowledging -------------------------------------------------------

  lemma AckExt(s: Spec, v: nat, t: nat, j: nat)
    ensures Ext(s, Ack(s, v, t, j)) && Acked(Ack(s, v, t, j), v, t, j)
    ensures forall w: nat, x: nat, k: nat | Acked(Ack(s, v, t, j), w, x, k) ::
              Acked(s, w, x, k) || (w == v && x == t && k <= j)
  {
  }

  lemma AckServers(a: Spec, v: nat, t: nat, j: nat)
    requires ServersOk(a)
    ensures ServersOk(Ack(a, v, t, j))
  {
    var b := Ack(a, v, t, j);
    AckExt(a, v, t, j);
    forall i | 0 <= i < b.n ensures ServerOk(b, i, b.servers[i]) {
      assert ServerOk(a, i, a.servers[i]);
      ServerOkExt(a, b, i, a.servers[i]);
    }
  }

  lemma AckElections(a: Spec, v: nat, t: nat, j: nat)
    requires TermsOk(a) && CandsOk(a) && VotesOk(a)
    ensures var b := Ack(a, v, t, j); TermsOk(b) && CandsOk(b) && VotesOk(b)
  {
    var b := Ack(a, v, t, j);
    forall u | u in b.terms ensures TermOk(b, u, b.terms[u]) {
      assert TermOk(a, u, a.terms[u]);
    }
    forall u, w | (u, w) in b.votes ensures VoteOk(b, u, w, b.votes[(u, w)]) {
      assert VoteOk(a, u, w, a.votes[(u, w)]);
    }
  }

  lemma AckKept(a: Spec, v: nat, t: nat, j: nat)
    requires AcksOk(a) && AcksKept(a)
    requires v < |a.servers| && t in a.terms && j < |a.terms[t].log|
    requires forall k: nat | k <= j && Entry(a, t, k) :: Has(a.servers[v].log, t, k)
    ensures AcksOk(Ack(a, v, t, j)) && AcksKept(Ack(a, v, t, j))
  {
    var b := Ack(a, v, t, j);
    AckExt(a, v, t, j);
    forall w: nat, x: nat, k: nat | Acked(b, w, x, k) && Entry(b, x, k) && w < |b.servers|
      ensures Preserved(b, x, k, b.servers[w].log, b.servers[w].pterm + 1)
    {
      assert Entry(a, x, k);
      if Acked(a, w, x, k) {
        PreservedExt(a, b, x, k, a.servers[w].log, a.servers[w].pterm + 1);
      }
    }
  }

  /** Votes above a server's term do not exist, so an ack never follows one. */
  lemma AckVoted(a: Spec, v: nat, t: nat, j: nat)
    requires VotesOk(a) && AcksVoted(a)
    requires v < |a.servers| && a.servers[v].pterm <= t
    ensures AcksVoted(Ack(a, v, t, j))
  {
    var b := Ack(a, v, t, j);
    AckExt(a, v, t, j);
    forall w: nat, x: nat, k: nat, u: nat |
      Acked(b, w, x, k) && Entry(b, x, k) && Counts(b, u, w) && x < u
      ensures Preserved(b, x, k, b.votes[(u, w)].log, u)
    {
      assert VoteOk(a, u, w, a.votes[(u, w)]);
      assert Acked(a, w, x, k) && Entry(a, x, k) && Counts(a, u, w);
      PreservedExt(a, b, x, k, a.votes[(u, w)].log, u);
    }
  }

  lemma AckInv(s: Spec, v: nat, t: nat, j: nat)
    requires Inv(s) && v < |s.servers| && s.servers[v].pterm <= t
    requires t in s.terms && j < |s.terms[t].log|
    requires forall k: nat | k <= j && Entry(s, t, k) :: Has(s.servers[v].log, t, k)
    ensures Inv(Ack(s, v, t, j)) && Ext(s, Ack(s, v, t, j)) && Acked(Ack(s, v, t, j), v, t, j)
  {
    AckExt(s, v, t, j);
    AckServers(s, v, t, j);
    AckElections(s, v, t, j);
    AckKept(s, v, t, j);
    AckVoted(s, v, t, j);
  }

  // ---- Appending and accepting entries -------------------------------------

  /** The state after the leader stores a new entry, before it counts itself. */
  function Extend(s: Spec, c: nat, cmd: Command): Spec
    requires c < |s.servers| && s.servers[c].term in s.terms
  {
    var r := s.servers[c];
    var l := r.log + [LogEntry(cmd, r.term, |r.log|)];
    Put(s, c, r.(log := l)).(terms := s.terms[r.term := s.terms[r.term].(log := l)])
  }

  lemma ExtendExt(s: Spec, c: nat, cmd: Command)
    requires c < |s.servers| && s.servers[c].term in s.terms
    requires s.servers[c].log == s.terms[s.servers[c].term].log
    ensures Ext(s, Extend(s, c, cmd))
    ensures forall u: nat, v: nat | Counts(Extend(s, c, cmd), u, v) :: Counts(s, u, v)
  {
    var r := s.servers[c];
    var b := Extend(s, c, cmd);
    assert Grows(r.term, s.terms[r.term], b.terms[r.term]);
  }

  lemma ExtendWf(s: Spec, c: nat, cmd: Command)
    requires cmd.Cmd?
    requires c < |s.servers| && ServerOk(s, c, s.servers[c]) && s.servers[c].role == Leader
    ensures Wf(Extend(s, c, cmd).terms, Extend(s, c, cmd).servers[c].log)
  {
    var r := s.servers[c];
    var b := Extend(s, c, cmd);
    var l := b.servers[c].log;
    ExtendExt(s, c, cmd);
    WfExt(s, b, r.log);
    forall i | 1 <= i < |l| ensures InTerm(b.terms, l, i) {
      if i < |r.log| {
        assert InTerm(b.terms, r.log, i);
        assert l[..i + 1] == r.log[..i + 1];
      }
    }
  }

  lemma ExtendTerms(a: Spec, c: nat, cmd: Command)
    requires cmd.Cmd?
    requires TermsOk(a)
    requires c < |a.servers| && ServerOk(a, c, a.servers[c]) && a.servers[c].role == Leader
    ensures TermsOk(Extend(a, c, cmd))
  {
    hide Wf, AgreedTo, IsQuorum, Ext;
    var b := Extend(a, c, cmd);
    ExtendExt(a, c, cmd);
    forall t | t in b.terms ensures TermOk(b, t, b.terms[t]) {
      assert TermOk(a, t, a.terms[t]);
      if t == a.servers[c].term {
        ExtendWf(a, c, cmd);
        assert a.terms[t].start == b.terms[t].log[..|a.terms[t].start|];
      } else {
        WfExt(a, b, a.terms[t].log);
      }
    }
  }

  lemma ExtendVotes(a: Spec, c: nat, cmd: Command)
    requires VotesOk(a) && c < |a.servers| && a.servers[c].term in a.terms
    requires a.servers[c].log == a.terms[a.servers[c].term].log
    ensures VotesOk(Extend(a, c, cmd))
  {
    var b := Extend(a, c, cmd);
    ExtendExt(a, c, cmd);
    forall u, w | (u, w) in b.votes ensures VoteOk(b, u, w, b.votes[(u, w)]) {
      assert VoteOk(a, u, w, a.votes[(u, w)]);
      WfExt(a, b, a.votes[(u, w)].log);
    }
  }

  lemma ExtendCands(a: Spec, c: nat, cmd: Command)
    requires CandsOk(a) && c < |a.servers| && a.servers[c].term in a.terms
    requires a.servers[c].log == a.terms[a.servers[c].term].log
    ensures CandsOk(Extend(a, c, cmd))
  {
    var b := Extend(a, c, cmd);
    ExtendExt(a, c, cmd);
    forall u, x | (u, x) in b.cands ensures Wf(b.terms, b.cands[(u, x)]) {
      WfExt(a, b, a.cands[(u, x)]);
    }
  }

  lemma ExtendServer(a: Spec, c: nat, cmd: Command)
    requires cmd.Cmd?
    requires c < |a.servers| && ServerOk(a, c, a.servers[c]) && a.servers[c].role == Leader
    ensures var b := Extend(a, c, cmd); ServerOk(b, c, b.servers[c])
  {
    var r := a.servers[c];
    var b := Extend(a, c, cmd);
    var l := b.servers[c].log;
    ExtendExt(a, c, cmd);
    ExtendWf(a, c, cmd);
    AgreedToExt(a, b, r.log, r.commit, r.term, r.term);
    AgreedToExt(a, b, r.log, r.base, r.pterm, r.pterm);
    assert l[..r.commit + 1] == r.log[..r.commit + 1];
    assert l[..r.base + 1] == r.log[..r.base + 1];
  }

  lemma ExtendServers(a: Spec, c: nat, cmd: Command)
    requires cmd.Cmd?
    requires ServersOk(a) && c < |a.servers| && a.servers[c].role == Leader
    ensures ServersOk(Extend(a, c, cmd))
  {
    var b := Extend(a, c, cmd);
    assert ServerOk(a, c, a.servers[c]);
    ExtendExt(a, c, cmd);
    forall i | 0 <= i < b.n ensures ServerOk(b, i, b.servers[i]) {
      if i == c {
        ExtendServer(a, c, cmd);
      } else {
        assert ServerOk(a, i, a.servers[i]);
        ServerOkExt(a, b, i, a.servers[i]);
      }
    }
  }

  // ---- Accepting -----------------------------------------------------------

  /** What an accepting server has agreed on is inside what it takes over. */
  lemma AcceptAgreed(s: Spec, r: Server, end: nat, c: nat, t: nat)
    requires TermsOk(s) && LeadersComplete(s) && r.term in s.terms
    requires end < |s.terms[r.term].log|
    requires !Has(r.log, s.terms[r.term].log[end].term, end)
    requires t <= r.term && AgreedTo(s, r.log, c, t)
    ensures AgreedTo(s, s.terms[r.term].log[..end + 1], c, r.term)
  {
    hide Agreed, TermsOk, LeadersComplete;
    var l := s.terms[r.term].log;
    AgreedLater(s, r.log, c, t, r.term);
    AgreedInLeader(s, r.log[..c + 1], t, r.term);
    assert l[..end + 1][..c + 1] == l[..c + 1];
  }

  lemma AcceptOk(s: Spec, v: nat, o: Server, end: nat) returns (r: Server)
    requires TermsOk(s) && LeadersComplete(s) && ServerOk(s, v, o)
    requires o.term in s.terms && o.role == Follower && end < |s.terms[o.term].log|
    requires !Has(o.log, s.terms[o.term].log[end].term, end)
    ensures r == o.(log := s.terms[o.term].log[..end + 1], pterm := o.term, pvote := o.vote)
    ensures ServerOk(s, v, r)
  {
    var l := s.terms[o.term].log;
    r := o.(log := l[..end + 1], pterm := o.term, pvote := o.vote);
    assert TermOk(s, o.term, s.terms[o.term]);
    hide Wf, AgreedTo, LeadersComplete, TermsOk, InTerm;
    WfPrefix(s.terms, l, end + 1);
    AcceptAgreed(s, o, end, o.commit, o.term);
    AcceptAgreed(s, o, end, o.base, o.pterm);
  }

  /** An entry lost by accepting is one the new leader does not have. */
  lemma AcceptKeepsOne(s: Spec, v: nat, o: Server, end: nat, t: nat, j: nat)
    requires TermsOk(s) && ServerOk(s, v, o)
    requires o.term in s.terms && end < |s.terms[o.term].log|
    requires !Has(o.log, s.terms[o.term].log[end].term, end)
    requires Entry(s, t, j) && Preserved(s, t, j, o.log, o.pterm + 1)
    ensures Preserved(s, t, j, s.terms[o.term].log[..end + 1], o.term + 1)
  {
    var l := s.terms[o.term].log;
    if Has(o.log, t, j) && !Has(l[..end + 1], t, j) {
      LeaderLogWf(s, o.term);
      if Has(l, t, j) { Matching(s.terms, o.log, l, j); }
      assert o.log[j].term <= LastTerm(o.log);
      assert t < o.term;
    }
  }

  lemma AcceptKeeps(s: Spec, v: nat, end: nat, r: Server)
    requires TermsOk(s) && AcksKept(s) && v < |s.servers| && ServerOk(s, v, s.servers[v])
    requires s.servers[v].term in s.terms && end < |s.terms[s.servers[v].term].log|
    requires !Has(s.servers[v].log, s.terms[s.servers[v].term].log[end].term, end)
    requires r.log == s.terms[s.servers[v].term].log[..end + 1] && r.pterm == s.servers[v].term
    ensures KeepsAcks(s, v, r)
  {
    forall t: nat, j: nat | Acked(s, v, t, j) && Entry(s, t, j)
      ensures Preserved(s, t, j, r.log, r.pterm + 1)
    {
      AcceptKeepsOne(s, v, s.servers[v], end, t, j);
    }
  }

  /** Once the entry at `end` matches, everything up to it does. */
  lemma MatchedEntries(s: Spec, l: Log, t: nat, end: nat)
    requires TermsOk(s) && Wf(s.terms, l) && t in s.terms && end < |s.terms[t].log|
    requires Has(l, s.terms[t].log[end].term, end)
    ensures l[..end + 1] == s.terms[t].log[..end + 1]
    ensures forall k: nat | k <= end && Entry(s, t, k) :: Has(l, t, k)
  {
    LeaderLogWf(s, t);
    Matching(s.terms, l, s.terms[t].log, end);
    forall k: nat | k <= end && Entry(s, t, k) ensures Has(l, t, k) {
      assert l[..end + 1][k] == s.terms[t].log[..end + 1][k];
    }
  }

  lemma AcceptChange(s: Spec, v: nat, end: nat) returns (m: Spec)
    requires Inv(s) && v < |s.servers| && s.servers[v].role == Follower
    requires s.servers[v].term in s.terms && end < |s.terms[s.servers[v].term].log|
    requires !Has(s.servers[v].log, s.terms[s.servers[v].term].log[end].term, end)
    ensures Inv(m) && Ext(s, m)
    ensures var o := s.servers[v]; m == Put(s, v,
              o.(log := s.terms[o.term].log[..end + 1], pterm := o.term, pvote := o.vote))
  {
    var o := s.servers[v];
    assert ServerOk(s, v, o);
    AllLeadersComplete(s);
    var r := AcceptOk(s, v, o, end);
    AcceptKeeps(s, v, end, r);
    assert Later(o, r);
    PutInv(s, v, r);
    m := Put(s, v, r);
  }

  lemma AckMatched(s: Spec, v: nat, end: nat)
    requires Inv(s) && v < |s.servers|
    requires s.servers[v].term in s.terms && end < |s.terms[s.servers[v].term].log|
    requires Has(s.servers[v].log, s.terms[s.servers[v].term].log[end].term, end)
    ensures var b := Ack(s, v, s.servers[v].term, end); Inv(b) && Ext(s, b)
    ensures Acked(Ack(s, v, s.servers[v].term, end), v, s.servers[v].term, end)
    ensures s.servers[v].log[..end + 1] == s.terms[s.servers[v].term].log[..end + 1]
  {
    assert ServerOk(s, v, s.servers[v]);
    MatchedEntries(s, s.servers[v].log, s.servers[v].term, end);
    AckInv(s, v, s.servers[v].term, end);
  }

  lemma LeadInv(s: Spec, c: nat, q: set<nat>)
    requires Inv(s) && CanLead(s, c, q)
    ensures |s.servers[c].log| >= 1
    ensures Inv(Lead(s, c, q)) && Ext(s, Lead(s, c, q))
    ensures Acked(Lead(s, c, q), c, s.servers[c].term, |s.servers[c].log| - 1)
  {
    var r := s.servers[c];
    assert |r.log| >= 1 by { assert ServerOk(s, c, r); }
    CrownInv(s, c, q);
    var m := Crown(s, c, q);
    AckMatched(m, c, |r.log| - 1);
    ExtTrans(s, m, Ack(m, c, r.term, |r.log| - 1));
  }

  lemma ExtendInv(s: Spec, c: nat, cmd: Command)
    requires cmd.Cmd?
    requires Inv(s) && c < |s.servers| && s.servers[c].role == Leader
    ensures s.servers[c].term in s.terms
    ensures Inv(Extend(s, c, cmd)) && Ext(s, Extend(s, c, cmd))
  {
    assert ServerOk(s, c, s.servers[c]);
    ExtendExt(s, c, cmd);
    ExtendServers(s, c, cmd);
    ExtendTerms(s, c, cmd);
    ExtendCands(s, c, cmd);
    ExtendVotes(s, c, cmd);
    ExtendAcks(s, c, cmd);
  }

  lemma ExtendAcks(s: Spec, c: nat, cmd: Command)
    requires AcksOk(s) && AcksKept(s) && AcksVoted(s)
    requires c < |s.servers| && s.servers[c].term in s.terms
    requires s.servers[c].log == s.terms[s.servers[c].term].log
    ensures var b := Extend(s, c, cmd); AcksOk(b) && AcksKept(b) && AcksVoted(b)
  {
    ExtendExt(s, c, cmd);
    AcksKeptGrow(s, Extend(s, c, cmd));
    AcksVotedGrow(s, Extend(s, c, cmd));
  }

  lemma AppendInv(s: Spec, c: nat, cmd: Command)
    requires cmd.Cmd?
    requires Inv(s) && c < |s.servers| && s.servers[c].role == Leader
    ensures s.servers[c].term in s.terms
    ensures Inv(Append(s, c, cmd)) && Ext(s, Append(s, c, cmd))
    ensures Acked(Append(s, c, cmd), c, s.servers[c].term, |s.servers[c].log|)
  {
    var r := s.servers[c];
    ExtendInv(s, c, cmd);
    var b := Extend(s, c, cmd);
    AckMatched(b, c, |r.log|);
    ExtTrans(s, b, Ack(b, c, r.term, |r.log|));
  }

  lemma AcceptInv(s: Spec, v: nat, end: nat)
    requires Inv(s) && v < |s.servers| && s.servers[v].role == Follower
    requires s.servers[v].term in s.terms && end < |s.terms[s.servers[v].term].log|
    ensures Inv(Accept(s, v, end)) && Ext(s, Accept(s, v, end))
    ensures Acked(Accept(s, v, end), v, s.servers[v].term, end)
    ensures end < |Accept(s, v, end).servers[v].log|
    ensures Accept(s, v, end).servers[v].log[..end + 1] == s.terms[s.servers[v].term].log[..end + 1]
  {
    var t := s.servers[v].term;
    if Has(s.servers[v].log, s.terms[t].log[end].term, end) {
      AckMatched(s, v, end);
    } else {
      var m := AcceptChange(s, v, end);
      AckMatched(m, v, end);
      ExtTrans(s, m, Ack(m, v, t, end));
    }
  }

  lemma InitInv(s: Spec)
    requires Init(s)
    ensures Inv(s)
  {
    forall i | 0 <= i < s.n ensures ServerOk(s, i, s.servers[i]) {
      assert [Dummy][..1] == [Dummy];
    }
  }
}
