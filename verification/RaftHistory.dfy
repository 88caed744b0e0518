/** Facts about the history variables, and leader completeness. */
module RaftHistory {
  import opened Quorums
  import opened RaftTypes
  import opened RaftSpec

  // ---- What was true of the past stays true --------------------------------

  lemma ExtRefl(a: Spec)
    ensures Ext(a, a)
  {
  }

  lemma ExtTrans(a: Spec, b: Spec, c: Spec)
    requires Ext(a, b) && Ext(b, c)
    ensures Ext(a, c)
  {
    forall t | t in a.terms ensures t in c.terms && Grows(t, a.terms[t], c.terms[t]) {
      var x, y, z := a.terms[t], b.terms[t], c.terms[t];
      assert Grows(t, x, y) && Grows(t, y, z);
      assert z.log[..|x.log|] == z.log[..|y.log|][..|x.log|];
      forall i | |x.log| <= i < |z.log| ensures z.log[i].term == t {
        if i < |y.log| { assert z.log[i] == y.log[i]; }
      }
    }
  }

  lemma PrefixExt(a: Spec, b: Spec, t: nat, k: nat)
    requires Ext(a, b) && t in a.terms && k <= |a.terms[t].log|
    ensures t in b.terms && k <= |b.terms[t].log|
    ensures a.terms[t].log[..k] == b.terms[t].log[..k]
  {
    assert Grows(t, a.terms[t], b.terms[t]);
    assert b.terms[t].log[..|a.terms[t].log|][..k] == b.terms[t].log[..k];
  }

  lemma WfExt(a: Spec, b: Spec, l: Log)
    requires Ext(a, b) && Wf(a.terms, l)
    ensures Wf(b.terms, l)
  {
    forall i | 1 <= i < |l| ensures InTerm(b.terms, l, i) {
      assert InTerm(a.terms, l, i);
      PrefixExt(a, b, l[i].term, i + 1);
    }
  }

  /** A later leader's log never gains an older leader's entry. */
  lemma LacksExt(a: Spec, b: Spec, x: nat, t: nat, j: nat)
    requires Ext(a, b) && x in a.terms && x != t
    ensures x in b.terms && (Has(b.terms[x].log, t, j) ==> Has(a.terms[x].log, t, j))
  {
    assert Grows(x, a.terms[x], b.terms[x]);
  }

  lemma PreservedExt(a: Spec, b: Spec, t: nat, j: nat, l: Log, hi: nat)
    requires Ext(a, b) && Preserved(a, t, j, l, hi)
    ensures Preserved(b, t, j, l, hi)
  {
    if !Has(l, t, j) {
      var x: nat :| t < x < hi && x in a.terms && !Has(a.terms[x].log, t, j);
      LacksExt(a, b, x, t, j);
    }
  }

  /** An entry of b's leader log within the acknowledged part was already a's. */
  lemma EntryBack(a: Spec, b: Spec, t: nat, j: nat)
    requires Ext(a, b) && t in a.terms && j < |a.terms[t].log| && Entry(b, t, j)
    ensures Entry(a, t, j)
  {
    PrefixExt(a, b, t, j + 1);
    assert a.terms[t].log[..j + 1][j] == b.terms[t].log[..j + 1][j];
  }

  lemma CommittedExt(a: Spec, b: Spec, t: nat, j: nat)
    requires Ext(a, b) && Committed(a, t, j)
    ensures Committed(b, t, j)
  {
    PrefixExt(a, b, t, j + 1);
    assert a.terms[t].log[..j + 1][j] == b.terms[t].log[..j + 1][j];
    QuorumGrows(a.n, AckSet(a, t, j), AckSet(b, t, j));
  }

  lemma AgreedExt(a: Spec, b: Spec, l: Log, t: nat, t': nat)
    requires Ext(a, b) && Agreed(a, l, t) && t <= t'
    ensures Agreed(b, l, t')
  {
    if l != [Dummy] {
      var u: nat, j: nat :|
        Committed(a, u, j) && u <= t && 1 <= |l| <= j + 1 && l == a.terms[u].log[..|l|];
      CommittedExt(a, b, u, j);
      PrefixExt(a, b, u, |l|);
    }
  }

  lemma AgreedToExt(a: Spec, b: Spec, l: Log, c: nat, t: nat, t': nat)
    requires Ext(a, b) && AgreedTo(a, l, c, t) && t <= t'
    ensures AgreedTo(b, l, c, t')
  {
    AgreedExt(a, b, l[..c + 1], t, t');
  }

  // ---- Log matching --------------------------------------------------------

  /** Same term at an index means the same entries up to it. */
  lemma Matching(ts: map<nat, TermRec>, a: Log, b: Log, i: nat)
    requires Wf(ts, a) && Wf(ts, b)
    requires i < |a| && i < |b| && a[i].term == b[i].term
    ensures a[..i + 1] == b[..i + 1]
  {
    if i == 0 {
      assert a[..1] == [Dummy] == b[..1];
    } else {
      assert InTerm(ts, a, i) && InTerm(ts, b, i);
    }
  }

  lemma PrefixOfPrefix(a: Log, b: Log, i: nat, k: nat)
    requires i <= k <= |a| && k <= |b| && a[..k] == b[..k]
    ensures a[..i] == b[..i]
  {
    assert a[..k][..i] == a[..i] && b[..k][..i] == b[..i];
  }

  lemma WfPrefix(ts: map<nat, TermRec>, l: Log, k: nat)
    requires Wf(ts, l) && 1 <= k <= |l|
    ensures Wf(ts, l[..k])
  {
    forall i | 1 <= i < k ensures InTerm(ts, l[..k], i) {
      assert InTerm(ts, l, i);
      assert l[..k][..i + 1] == l[..i + 1];
    }
  }

  // ---- Leader completeness -------------------------------------------------

  /** An up-to-date log holds every entry the voter had, if later leaders do. */
  lemma UpToDateHas(s: Spec, cand: Log, voter: Log, t: nat, j: nat, hi: nat)
    requires TermsOk(s) && Wf(s.terms, cand) && Wf(s.terms, voter)
    requires UpToDate(cand, voter) && LastTerm(cand) < hi
    requires t in s.terms && 1 <= j && Has(voter, t, j)
    requires forall x | t < x < hi && x in s.terms :: Has(s.terms[x].log, t, j)
    ensures Has(cand, t, j)
  {
    var x := LastTerm(cand);
    var e := |cand| - 1;
    assert voter[j].term <= LastTerm(voter);
    assert t >= 1 by { assert TermOk(s, t, s.terms[t]); }
    assert e >= 1;
    assert InTerm(s.terms, cand, e);
    var l := s.terms[x].log;
    if x == LastTerm(voter) {
      assert InTerm(s.terms, voter, |voter| - 1);
      PrefixOfPrefix(cand, l, j + 1, e + 1);
      PrefixOfPrefix(voter, l, j + 1, |voter|);
      assert cand[..j + 1][j] == voter[..j + 1][j];
    } else {
      assert Has(l, t, j);
      assert l[e] == cand[e] by { assert l[..e + 1][e] == cand[..e + 1][e]; }
      assert j <= e by { assert TermOk(s, x, s.terms[x]); }
      PrefixOfPrefix(cand, l, j + 1, e + 1);
      assert cand[..j + 1][j] == l[..j + 1][j];
    }
  }

  /**
   * Leader completeness: an entry committed in term t is in the log of the
   * leader of every later term, whichever of the two happened first.
   */
  lemma {:induction false} LeaderCompleteness(s: Spec, t: nat, j: nat, u: nat)
    requires Inv(s) && Committed(s, t, j)
    requires u in s.terms && t < u
    ensures Has(s.terms[u].log, t, j)
    decreases u
  {
    var r := s.terms[u];
    assert TermOk(s, u, r);
    var v := QuorumsMeet(s.n, r.voters, AckSet(s, t, j));
    var b := s.votes[(u, v)];
    assert VoteOk(s, u, v, b);
    assert Entry(s, t, j) && Counts(s, u, v) && Acked(s, v, t, j);
    forall x | t < x < u && x in s.terms ensures Has(s.terms[x].log, t, j) {
      LeaderCompleteness(s, t, j, x);
    }
    assert Has(b.log, t, j) by { assert Preserved(s, t, j, b.log, u); }
    assert Wf(s.terms, r.start) by { assert s.cands[(u, r.leader)] == r.start; }
    UpToDateHas(s, r.start, b.log, t, j, u);
    assert r.start[j] == r.log[..|r.start|][j];
  }

  ghost predicate LeadersComplete(s: Spec) {
    forall t: nat, j: nat, u: nat | Committed(s, t, j) && u in s.terms && t < u ::
      Has(s.terms[u].log, t, j)
  }

  lemma AllLeadersComplete(s: Spec)
    requires Inv(s)
    ensures LeadersComplete(s)
  {
    forall t: nat, j: nat, u: nat | Committed(s, t, j) && u in s.terms && t < u
      ensures Has(s.terms[u].log, t, j)
    {
      LeaderCompleteness(s, t, j, u);
    }
  }

  lemma InvTerms(s: Spec)
    requires Inv(s)
    ensures TermsOk(s)
  {
  }

  lemma InvServer(s: Spec, i: nat)
    requires Inv(s) && i < |s.servers|
    ensures ServerOk(s, i, s.servers[i])
  {
  }

  lemma LeaderLogWf(s: Spec, t: nat)
    requires TermsOk(s) && t in s.terms
    ensures Wf(s.terms, s.terms[t].log)
  {
    assert TermOk(s, t, s.terms[t]);
  }

  /** Everything agreed by term t is a prefix of the log of every leader since. */
  lemma AgreedInLeader(s: Spec, l: Log, t: nat, m: nat)
    requires TermsOk(s) && LeadersComplete(s)
    requires Agreed(s, l, t) && t <= m && m in s.terms
    ensures |l| <= |s.terms[m].log| && l == s.terms[m].log[..|l|]
  {
    hide TermsOk, LeadersComplete, IsQuorum, AckSet;
    StartsWithDummy(s, m);
    if l == [Dummy] {
      assert s.terms[m].log[..1] == [Dummy];
    } else {
      var u: nat, j: nat :|
        Committed(s, u, j) && u <= t && 1 <= |l| <= j + 1 && l == s.terms[u].log[..|l|];
      CommittedInLeader(s, u, j, m);
      PrefixOfPrefix(s.terms[u].log, s.terms[m].log, |l|, j + 1);
    }
  }

  lemma StartsWithDummy(s: Spec, m: nat)
    requires TermsOk(s) && m in s.terms
    ensures |s.terms[m].log| >= 1 && s.terms[m].log[0] == Dummy
  {
    assert TermOk(s, m, s.terms[m]);
  }

  lemma CommittedInLeader(s: Spec, u: nat, j: nat, m: nat)
    requires TermsOk(s) && LeadersComplete(s)
    requires Committed(s, u, j) && u <= m && m in s.terms
    ensures j < |s.terms[m].log| && s.terms[u].log[..j + 1] == s.terms[m].log[..j + 1]
  {
    if u < m {
      LeaderLogWf(s, u);
      LeaderLogWf(s, m);
      Matching(s.terms, s.terms[u].log, s.terms[m].log, j);
    }
  }

  lemma AgreedStart(s: Spec, l: Log, t: nat)
    requires TermsOk(s) && Agreed(s, l, t)
    ensures |l| >= 1 && l[0] == Dummy
  {
    if l != [Dummy] {
      var x: nat, j: nat :|
        Committed(s, x, j) && x <= t && 1 <= |l| <= j + 1 && l == s.terms[x].log[..|l|];
      LeaderLogWf(s, x);
    }
  }

  lemma AgreedBy(s: Spec, l: Log, t: nat) returns (u: nat)
    requires Agreed(s, l, t) && l != [Dummy]
    ensures u in s.terms && u <= t && Agreed(s, l, u)
  {
    var j: nat;
    u, j :| Committed(s, u, j) && u <= t && 1 <= |l| <= j + 1 && l == s.terms[u].log[..|l|];
  }

  /** The log of some leader contains both of two agreed logs. */
  lemma CommonLeader(s: Spec, a: Log, b: Log, t: nat, u: nat) returns (l: Log)
    requires TermsOk(s) && LeadersComplete(s)
    requires Agreed(s, a, t) && Agreed(s, b, u) && a != [Dummy] && b != [Dummy]
    ensures |a| <= |l| && |b| <= |l| && a == l[..|a|] && b == l[..|b|]
  {
    var x := AgreedBy(s, a, t);
    var y := AgreedBy(s, b, u);
    var m := if x < y then y else x;
    l := s.terms[m].log;
    AgreedInLeader(s, a, x, m);
    AgreedInLeader(s, b, y, m);
  }

  /** Two agreed logs never differ where both reach. */
  lemma AgreedUnique(s: Spec, a: Log, b: Log, t: nat, u: nat)
    requires TermsOk(s) && LeadersComplete(s)
    requires Agreed(s, a, t) && Agreed(s, b, u) && |a| <= |b|
    ensures a == b[..|a|]
  {
    if a == [Dummy] {
      AgreedStart(s, b, u);
    } else if b == [Dummy] {
      AgreedStart(s, a, t);
    } else {
      var l := CommonLeader(s, a, b, t, u);
      assert b[..|a|] == l[..|a|];
    }
  }
}
