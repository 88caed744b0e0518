/** Taking over a leader's entries or snapshot is a step of the specification. */
module SimFollower {
  import opened Payload
  import opened RaftTypes
  import opened RaftSpec
  import opened RaftHistory
  import opened RaftInv
  import opened Relation
  import opened SimElection
  import opened SimLeader
  import N = RaftNode

  // ---- Finding the first new entry -----------------------------------------

  /** Up to k everything matches; from k on nothing was compared. */
  ghost predicate SameUpTo(r: Log, l: Log, k: nat) {
    k <= |r| && k <= |l| && r[..k] == l[..k]
  }

  /** s holds the terms of r from index b on. */
  ghost predicate Aligned(s: Log, r: Log, b: nat) {
    && b < |r| && |s| == |r| - b
    && forall x | b <= x < |r| :: s[x - b].term == r[x].term
  }

  /** es are the entries of l from p + 1 on. */
  ghost predicate Stretch(es: Log, l: Log, p: nat) {
    && p + |es| < |l|
    && forall i | 0 <= i < |es| :: es[i] == l[p + 1 + i] && es[i].index == p + 1 + i
  }

  /**
   * Scanning the leader's entries finds where the logs part: everything before
   * is the same, and the scan ends only at a difference or at the last entry.
   */
  lemma {:induction false} ScanFinds(ts: map<nat, TermRec>, r: Log, l: Log, s: Log, es: Log,
                                     b: nat, p: nat, k: nat) returns (q: nat)
    requires Wf(ts, r) && Wf(ts, l) && b <= p && k <= |es|
    requires Aligned(s, r, b) && Stretch(es, l, p) && SameUpTo(r, l, p + 1 + k)
    ensures k <= q <= |es| && q == N.FirstNew(s, b, es, k)
    ensures SameUpTo(r, l, p + 1 + q)
    ensures q < |es| ==> !Has(r, l[p + 1 + q].term, p + 1 + q)
    decreases |es| - k
  {
    var x := p + 1 + k;
    if k < |es| && Has(r, l[x].term, x) {
      Matching(ts, r, l, x);
      assert s[x - b].term == r[x].term;
      q := ScanFinds(ts, r, l, s, es, b, p, k + 1);
    } else {
      if x < |r| { assert s[x - b].term == r[x].term; }
      q := k;
    }
  }

  /** Joining what matches with what is new gives the leader's log up to its end. */
  lemma JoinAtDifference(r: Log, l: Log, es: Log, b: nat, p: nat, q: nat)
    requires b <= p && Stretch(es, l, p) && q <= |es| && SameUpTo(r, l, p + 1 + q)
    ensures p + 1 + q - b <= |Suffix(r, b)|
    ensures Suffix(r, b)[..p + 1 + q - b] + es[q..] == Suffix(l[..p + |es| + 1], b)
  {
    var x, end := p + 1 + q, p + |es|;
    assert r[b] == r[..x][b] == l[..x][b];
    assert Suffix(r, b)[..x - b] == [LogEntry(Nil, r[b].term, b)] + r[b + 1..x];
    assert r[b + 1..x] == r[..x][b + 1..] == l[..x][b + 1..] == l[b + 1..x];
    assert es[q..] == l[x..end + 1];
    assert l[..end + 1][b + 1..] == l[b + 1..x] + l[x..end + 1];
  }

  // ---- Storing entries -----------------------------------------------------

  lemma SuffixAligned(r: Log, b: nat)
    requires Shape(r) && b < |r|
    ensures Aligned(Suffix(r, b), r, b)
  {
    SuffixFacts(r, b);
  }

  /** Logs that differ at x match nowhere after it. */
  lemma DifferenceStays(ts: map<nat, TermRec>, r: Log, l: Log, x: nat, end: nat)
    requires Wf(ts, r) && Wf(ts, l) && x <= end < |l| && !Has(r, l[x].term, x)
    ensures !Has(r, l[end].term, end)
  {
    if Has(r, l[end].term, end) {
      Matching(ts, r, l, end);
    }
  }

  /** Storing leaves the log alone if it already matches at the end ... */
  lemma ScanFromPrev(ts: map<nat, TermRec>, r: Log, l: Log, es: Log, b: nat, p: nat)
    returns (q: nat)
    requires Wf(ts, r) && Wf(ts, l) && Stretch(es, l, p)
    requires b <= p < |r| && r[p].term == l[p].term
    ensures q <= |es| && q == N.FirstNew(Suffix(r, b), b, es, 0)
    ensures SameUpTo(r, l, p + 1 + q)
    ensures Has(r, l[p + |es|].term, p + |es|) <==> q == |es|
  {
    SuffixAligned(r, b);
    Matching(ts, r, l, p);
    q := ScanFinds(ts, r, l, Suffix(r, b), es, b, p, 0);
    ScanEnd(ts, r, l, p + 1 + q, p + |es|);
  }

  lemma ScanEnd(ts: map<nat, TermRec>, r: Log, l: Log, x: nat, end: nat)
    requires Wf(ts, r) && Wf(ts, l) && x <= end + 1 <= |l| && SameUpTo(r, l, x)
    requires x <= end ==> !Has(r, l[x].term, x)
    ensures Has(r, l[end].term, end) <==> x == end + 1
  {
    if x == end + 1 {
      assert r[..end + 1][end] == l[..end + 1][end];
    } else {
      DifferenceStays(ts, r, l, x, end);
    }
  }

  lemma StoreUnfolds(n: Node, args: AppendArgs, q: nat, joined: Log)
    requires N.Valid(n) && N.Numbered(args)
    requires N.First(n).index <= args.prevLogIndex <= N.Last(n).index
    requires q == N.FirstNew(n.logs, N.First(n).index, args.entries, 0)
    requires args.prevLogIndex + 1 + q - N.First(n).index <= |n.logs|
    requires n.logs[..args.prevLogIndex + 1 + q - N.First(n).index] + args.entries[q..] == joined
    ensures q == |args.entries| ==> N.StoreEntries(n, args) == n
    ensures q < |args.entries| ==> N.StoreEntries(n, args) == N.PersistState(n.(logs := joined))
  {
  }

  /** ... and otherwise makes it the leader's log up to there. */
  lemma NewLog(ts: map<nat, TermRec>, r: Log, l: Log, es: Log, b: nat, p: nat) returns (q: nat)
    requires Wf(ts, r) && Wf(ts, l) && Stretch(es, l, p)
    requires b <= p < |r| && r[p].term == l[p].term
    ensures q <= |es| && q == N.FirstNew(Suffix(r, b), b, es, 0)
    ensures p + 1 + q - b <= |Suffix(r, b)|
    ensures Suffix(r, b)[..p + 1 + q - b] + es[q..] == Suffix(l[..p + |es| + 1], b)
    ensures Has(r, l[p + |es|].term, p + |es|) <==> q == |es|
  {
    q := ScanFromPrev(ts, r, l, es, b, p);
    JoinAtDifference(r, l, es, b, p, q);
  }

  // ---- The simulation ------------------------------------------------------

  lemma AcceptNode(a: Spec, i: nat, n: Node, tally: set<nat>, end: nat)
    requires NodeOk(a, i, n, tally) && n.state == Follower
    requires n.currentTerm in a.terms && end < |a.terms[n.currentTerm].log|
    requires a.servers[i].base <= end
    requires SameUpTo(a.servers[i].log, a.terms[n.currentTerm].log, a.servers[i].base + 1)
    ensures var l := a.terms[n.currentTerm].log; var r := a.servers[i];
            NodeOk(Accept(a, i, end), i,
                   if Has(r.log, l[end].term, end) then n
                   else N.PersistState(n.(logs := Suffix(l[..end + 1], r.base))), tally)
  {
    var l, r := a.terms[n.currentTerm].log, a.servers[i];
    assert r.log[..r.base + 1][r.base] == l[..r.base + 1][r.base];
  }

  /** The previous entry of a request that matches, seen in the full log. */
  lemma PrevMatches(a: Spec, i: nat, n: Node, tally: set<nat>, args: AppendArgs)
    requires TermsOk(a) && NodeOk(a, i, n, tally) && Wf(a.terms, a.servers[i].log)
    requires AppendArgsOk(a, args)
    requires N.Valid(n) && N.LogMatched(n, args.prevLogIndex, args.prevLogTerm)
    ensures var r, p := a.servers[i], args.prevLogIndex;
            && r.base <= p < |r.log| && r.log[p].term == a.terms[args.term].log[p].term
            && N.First(n).index == r.base && N.Last(n).index == |r.log| - 1
            && SameUpTo(r.log, a.terms[args.term].log, r.base + 1)
  {
    hide TermsOk, AgreedTo, MatchOk, TallyOk, InTerm;
    var l, r, p := a.terms[args.term].log, a.servers[i], args.prevLogIndex;
    NodeValid(n, r, i, a.n);
    MatchedMeans(n, r, i, a.n, p, args.prevLogTerm);
    LeaderLogWf(a, args.term);
    hide Wf, Core, N.LogMatched, N.Valid;
    Matching(a.terms, r.log, l, p);
    PrefixOfPrefix(r.log, l, r.base + 1, p + 1);
  }

  lemma ArgsStretch(a: Spec, args: AppendArgs)
    requires TermsOk(a) && AppendArgsOk(a, args)
    ensures N.Numbered(args) && Stretch(args.entries, a.terms[args.term].log, args.prevLogIndex)
  {
    LeaderLogWf(a, args.term);
  }

  /** Where the scan of a request's entries ends, and what the log becomes. */
  lemma RequestScan(a: Spec, r: Server, args: AppendArgs, end: nat) returns (q: nat, joined: Log)
    requires TermsOk(a) && AppendArgsOk(a, args) && Wf(a.terms, r.log)
    requires end == args.prevLogIndex + |args.entries|
    requires r.base <= args.prevLogIndex < |r.log|
    requires r.log[args.prevLogIndex].term == a.terms[args.term].log[args.prevLogIndex].term
    ensures N.Numbered(args)
    ensures q <= |args.entries| && q == N.FirstNew(Suffix(r.log, r.base), r.base, args.entries, 0)
    ensures args.prevLogIndex + 1 + q - r.base <= |Suffix(r.log, r.base)|
    ensures joined == Suffix(r.log, r.base)[..args.prevLogIndex + 1 + q - r.base] + args.entries[q..]
    ensures joined == Suffix(a.terms[args.term].log[..end + 1], r.base)
    ensures Has(r.log, a.terms[args.term].log[end].term, end) <==> q == |args.entries|
  {
    hide Wf, Suffix, Stretch, Has, N.FirstNew, N.Numbered, TermsOk;
    ArgsStretch(a, args);
    var l := a.terms[args.term].log;
    LeaderLogWf(a, args.term);
    q := NewLog(a.terms, r.log, l, args.entries, r.base, args.prevLogIndex);
    joined := Suffix(l[..end + 1], r.base);
  }

  /** What StoreEntries makes of a follower whose previous entry matches. */
  lemma StoreIsAccept(a: Spec, n: Node, r: Server, args: AppendArgs, end: nat) returns (joined: Log)
    requires TermsOk(a) && AppendArgsOk(a, args) && Wf(a.terms, r.log)
    requires end == args.prevLogIndex + |args.entries|
    requires r.base <= args.prevLogIndex < |r.log|
    requires r.log[args.prevLogIndex].term == a.terms[args.term].log[args.prevLogIndex].term
    requires N.Valid(n) && n.logs == Suffix(r.log, r.base)
    requires N.First(n).index == r.base && N.Last(n).index == |r.log| - 1
    ensures N.Numbered(args) && joined == Suffix(a.terms[args.term].log[..end + 1], r.base)
    ensures N.StoreEntries(n, args) ==
              if Has(r.log, a.terms[args.term].log[end].term, end) then n
              else N.PersistState(n.(logs := joined))
  {
    hide Wf, TermsOk, AppendArgsOk, Suffix, N.StoreEntries, N.FirstNew, N.Valid;
    var q;
    q, joined := RequestScan(a, r, args, end);
    StoreUnfolds(n, args, q, joined);
  }

  lemma StoreNode(a: Spec, i: nat, n: Node, tally: set<nat>, args: AppendArgs, end: nat)
    returns (m: Node)
    requires TermsOk(a) && NodeOk(a, i, n, tally) && n.state == Follower
    requires Wf(a.terms, a.servers[i].log)
    requires AppendArgsOk(a, args) && args.term == n.currentTerm
    requires end == args.prevLogIndex + |args.entries|
    requires N.Valid(n) && N.LogMatched(n, args.prevLogIndex, args.prevLogTerm)
    ensures N.Numbered(args) && m == N.StoreEntries(n, args) && N.Valid(m)
    ensures NodeOk(Accept(a, i, end), i, m, tally)
    ensures m.currentTerm == args.term && m.state == Follower
  {
    PrevMatches(a, i, n, tally, args);
    var joined := StoreIsAccept(a, n, a.servers[i], args, end);
    N.StoreValid(n, args);
    AcceptNode(a, i, n, tally, end);
    m := N.StoreEntries(n, args);
  }

  lemma SimAccept(a: Spec, i: nat, end: nat) returns (b: Spec)
    requires Inv(a) && i < |a.servers| && a.servers[i].role == Follower
    requires a.servers[i].term in a.terms && end < |a.terms[a.servers[i].term].log|
    ensures StepOf(a, b, i) && b == Accept(a, i, end)
    ensures Acked(b, i, a.servers[i].term, end) && end < |b.servers[i].log|
    ensures b.servers[i].log[..end + 1] == a.terms[a.servers[i].term].log[..end + 1]
  {
    hide Inv, Ext, Acked;
    AcceptInv(a, i, end);
    b := Accept(a, i, end);
  }

  lemma SimStore(a: Spec, i: nat, n: Node, tally: set<nat>, args: AppendArgs, end: nat)
    returns (b: Spec, m: Node)
    requires Inv(a) && NodeOk(a, i, n, tally) && n.state == Follower
    requires AppendArgsOk(a, args) && args.term == n.currentTerm
    requires end == args.prevLogIndex + |args.entries|
    requires N.Valid(n) && N.LogMatched(n, args.prevLogIndex, args.prevLogTerm)
    ensures N.Numbered(args) && m == N.StoreEntries(n, args) && N.Valid(m)
    ensures StepOf(a, b, i) && b == Accept(a, i, end)
    ensures NodeOk(b, i, m, tally) && m.currentTerm == args.term && m.state == Follower
    ensures m.commitIndex == n.commitIndex
    ensures Acked(b, i, args.term, end) && end < |b.servers[i].log|
    ensures b.servers[i].log[..end + 1] == a.terms[args.term].log[..end + 1]
  {
    b := SimAccept(a, i, end);
    assert ServerOk(a, i, a.servers[i]);
    m := StoreNode(a, i, n, tally, args, end);
  }

  // ---- Learning the commit index -------------------------------------------

  /** A follower holding the request's entries may commit up to LeaderCommit. */
  lemma LearnAgreed(a: Spec, l: Log, k: Log, c: nat, end: nat, t: nat)
    requires AgreedTo(a, l, c, t) && c <= end && end < |l| && end < |k|
    requires l[..end + 1] == k[..end + 1]
    ensures AgreedTo(a, k, c, t)
  {
    PrefixOfPrefix(l, k, c + 1, end + 1);
  }

  lemma SimLearnCommit(a: Spec, i: nat, n: Node, tally: set<nat>, x: nat) returns (b: Spec, m: Node)
    requires Inv(a) && NodeOk(a, i, n, tally) && N.Valid(n)
    requires AgreedTo(a, a.servers[i].log, x, n.currentTerm)
    ensures StepOf(a, b, i) && m == N.LearnCommit(n, x) && m.commitIndex == N.Max(n.commitIndex, x)
    ensures NodeOk(b, i, m, tally) && b.acks == a.acks
  {
    LogShape(a, i);
    LearnCommitIs(n, a.servers[i], i, a.n, x);
    if x > n.commitIndex {
      b := SimLearn(a, i, n, tally, x);
      m := n.(commitIndex := x);
    } else {
      b := a;
      m := n;
      StepRefl(a, i);
    }
  }

  lemma LearnCommitIs(n: Node, r: Server, i: nat, size: nat, x: nat)
    requires Core(n, r, i, size) && Shape(r.log) && N.Valid(n) && x < |r.log|
    ensures N.LearnCommit(n, x) == if x > n.commitIndex then n.(commitIndex := x) else n
  {
    NodeValid(n, r, i, size);
  }

  lemma SimMatched(a: Spec, i: nat, n: Node, tally: set<nat>, args: AppendArgs)
    returns (b: Spec, m: Node)
    requires Inv(a) && NodeOk(a, i, n, tally) && n.state == Follower
    requires AppendArgsOk(a, args) && args.term == n.currentTerm
    requires N.Valid(n) && N.LogMatched(n, args.prevLogIndex, args.prevLogTerm)
    ensures N.Numbered(args) && N.Valid(N.StoreEntries(n, args))
    ensures m == N.LearnCommit(N.StoreEntries(n, args), args.leaderCommit)
    ensures m.commitIndex == N.Max(n.commitIndex, args.leaderCommit)
    ensures StepOf(a, b, i) && NodeOk(b, i, m, tally)
    ensures Acked(b, i, args.term, args.prevLogIndex + |args.entries|)
  {
    hide Inv, NodeOk, N.StoreEntries, N.LearnCommit, N.LogMatched, AgreedTo;
    var end := args.prevLogIndex + |args.entries|;
    var c, k := SimStore(a, i, n, tally, args, end);
    AppendArgsExt(a, c, args);
    PrefixExt(a, c, args.term, end + 1);
    LearnAgreed(c, c.terms[args.term].log, c.servers[i].log, args.leaderCommit, end, args.term);
    b, m := SimLearnCommit(c, i, k, tally, args.leaderCommit);
    StepOfTrans(a, c, b, i);
  }

  lemma SimBeginAppend(a: Spec, i: nat, n: Node, tally: set<nat>, term: nat)
    returns (b: Spec, m: Node)
    requires Inv(a) && NodeOk(a, i, n, tally) && term >= n.currentTerm
    ensures m == N.UpdateTermAndStepDown(n, term).(state := Follower)
    ensures StepOf(a, b, i) && NodeOk(b, i, m, tally)
    ensures m.currentTerm == term && m.state == Follower && N.Valid(m)
  {
    var c := SimUpdateTerm(a, i, n, tally, term);
    b := SimStepDown(c, i, N.UpdateTermAndStepDown(n, term), tally);
    m := N.UpdateTermAndStepDown(n, term).(state := Follower);
    StepOfTrans(a, c, b, i);
    LogShape(b, i);
    NodeValid(m, b.servers[i], i, b.n);
  }

  lemma SimAppendEntry(a: Spec, i: nat, n: Node, tally: set<nat>, args: AppendArgs)
    returns (b: Spec, m: Node, reply: AppendReply)
    requires Inv(a) && NodeOk(a, i, n, tally) && N.Valid(n) && AppendArgsOk(a, args)
    ensures N.Numbered(args) && (m, reply) == N.AppendEntry(n, args)
    ensures StepOf(a, b, i) && NodeOk(b, i, m, tally)
    ensures reply.success ==> Acked(b, i, args.term, args.prevLogIndex + |args.entries|)
    ensures reply.success <==> args.term >= n.currentTerm && N.LogMatched(n, args.prevLogIndex, args.prevLogTerm)
    ensures m.commitIndex == if reply.success then N.Max(n.commitIndex, args.leaderCommit) else n.commitIndex
    ensures reply.term == m.currentTerm == N.Max(n.currentTerm, args.term)
    ensures args.term >= n.currentTerm ==> m.state == Follower
  {
    hide Inv, NodeOk, AppendArgsOk, TermsOk;
    InvTerms(a);
    ArgsStretch(a, args);
    m, reply := N.AppendEntry(n, args).0, N.AppendEntry(n, args).1;
    if args.term < n.currentTerm {
      b := a;
      StepRefl(a, i);
    } else {
      var c, k := SimBeginAppend(a, i, n, tally, args.term);
      if N.LogMatched(k, args.prevLogIndex, args.prevLogTerm) {
        AppendArgsExt(a, c, args);
        b, m := SimMatched(c, i, k, tally, args);
        StepOfTrans(a, c, b, i);
      } else {
        b := c;
      }
    }
  }

  // ---- Installing a snapshot -----------------------------------------------

  /** A greater term is only noted in memory. */
  lemma SimNoteTerm(a: Spec, i: nat, n: Node, tally: set<nat>, term: nat) returns (b: Spec, m: Node)
    requires Inv(a) && NodeOk(a, i, n, tally) && term >= n.currentTerm
    ensures m == (if term > n.currentTerm then n.(currentTerm := term, voteFor := -1) else n).(state := Follower)
    ensures StepOf(a, b, i) && NodeOk(b, i, m, tally)
    ensures m.currentTerm == term && m.state == Follower && N.Valid(m)
  {
    hide Inv;
    if term > n.currentTerm {
      b := SimRaise(a, i, n, tally, term);
      m := n.(currentTerm := term, voteFor := -1, state := Follower);
    } else {
      b := SimStepDown(a, i, n, tally);
      m := n.(state := Follower);
    }
    LogShape(b, i);
    NodeValid(m, b.servers[i], i, b.n);
  }

  /** A snapshot no newer than what is applied is a prefix already held. */
  lemma HeldAlready(a: Spec, r: Server, m: nat)
    requires TermsOk(a) && LeadersComplete(a) && r.term in a.terms
    requires AgreedTo(a, r.log, r.commit, r.term) && m <= r.commit
    requires m < |a.terms[r.term].log|
    ensures Has(r.log, a.terms[r.term].log[m].term, m)
  {
    var l := a.terms[r.term].log;
    AgreedInLeader(a, r.log[..r.commit + 1], r.term, r.term);
    assert r.log[..r.commit + 1][m] == l[..r.commit + 1][m];
  }

  lemma AcceptHeld(a: Spec, i: nat, n: Node, tally: set<nat>, m: nat) returns (b: Spec)
    requires Inv(a) && NodeOk(a, i, n, tally) && n.state == Follower
    requires n.currentTerm in a.terms && m < |a.terms[n.currentTerm].log| && m <= n.commitIndex
    ensures StepOf(a, b, i) && NodeOk(b, i, n, tally) && Acked(b, i, n.currentTerm, m)
  {
    var r := a.servers[i];
    b := SimAccept(a, i, m);
    assert AgreedTo(a, r.log, r.commit, r.term) by { assert ServerOk(a, i, r); }
    AllLeadersComplete(a);
    InvTerms(a);
    hide Inv, ServerOk, TermsOk, LeadersComplete, AgreedTo;
    HeldAlready(a, r, m);
    AckExt(a, i, n.currentTerm, m);
    NodeExt(a, b, i, n, tally);
  }

  /** The three branches of InstallSnapShot, on the full logs. */
  lemma InstalledIs(n: Node, r: Log, l: Log, b: nat, args: SnapArgs, m: nat)
    requires N.Valid(n) && b < |r| && n.logs == Suffix(r, b)
    requires N.First(n).index == b && N.Last(n).index == |r| - 1
    requires b < m < |l| && m == args.lastIncludedIndex && args.lastIncludedTerm == l[m].term
    requires m < |r| ==> n.logs[m - b].term == r[m].term
    ensures N.InstalledLog(n, args) == Suffix(if Has(r, l[m].term, m) then r else l[..m + 1], m)
  {
    if Has(r, l[m].term, m) {
      SuffixTail(r, b, m);
    } else {
      assert l[..m + 1][m + 1..] == [];
    }
  }

  /** Accept the leader's log up to m, commit it, and compact it away. */
  lemma SpecAdopt(a: Spec, i: nat, m: nat) returns (b: Spec)
    requires Inv(a) && i < |a.servers| && a.servers[i].role == Follower
    requires a.servers[i].term in a.terms && a.servers[i].base < m < |a.terms[a.servers[i].term].log|
    requires AgreedTo(a, a.terms[a.servers[i].term].log, m, a.servers[i].term)
    ensures StepOf(a, b, i) && Acked(b, i, a.servers[i].term, m)
    ensures var r, l := a.servers[i], a.terms[a.servers[i].term].log;
            b.servers[i] ==
              r.(log := if Has(r.log, l[m].term, m) then r.log else l[..m + 1],
                 pterm := r.term, pvote := r.vote, commit := N.Max(r.commit, m), base := m)
  {
    hide Inv, AgreedTo, Acked;
    var t, l := a.servers[i].term, a.terms[a.servers[i].term].log;
    var c := SimAccept(a, i, m);
    AgreedToExt(a, c, l, m, t, t);
    LearnAgreed(c, l, c.servers[i].log, m, m, t);
    var d := c;
    StepRefl(c, i);
    if m > c.servers[i].commit {
      LearnInv(c, i, m);
      d := Learn(c, i, m);
    }
    StepOfTrans(a, c, d, i);
    AckedStays(c, d, i, t, m);
    CompactInv(d, i, m);
    b := Compact(d, i, m);
    StepOfTrans(a, d, b, i);
    AckedStays(d, b, i, t, m);
  }

  lemma AckedStays(a: Spec, b: Spec, v: nat, t: nat, j: nat)
    requires Ext(a, b) && Acked(a, v, t, j)
    ensures Acked(b, v, t, j)
  {
  }

  lemma AdoptNode(a: Spec, b: Spec, i: nat, n: Node, tally: set<nat>, args: SnapArgs)
    requires NodeOk(a, i, n, tally) && n.state == Follower && N.Valid(n) && Shape(a.servers[i].log)
    requires Ext(a, b) && SnapArgsOk(a, args) && args.term == n.currentTerm
    requires args.lastIncludedIndex > n.lastApplied
    requires args.image.Some?
    requires var r, l, m := a.servers[i], a.terms[args.term].log, args.lastIncludedIndex;
             b.servers[i] ==
               r.(log := if Has(r.log, l[m].term, m) then r.log else l[..m + 1],
                  pterm := r.term, pvote := r.vote, commit := N.Max(r.commit, m), base := m)
    ensures NodeOk(b, i, N.Adopt(n, args), tally)
  {
    hide Suffix, N.InstalledLog, AgreedTo, Shape;
    var r, l, m := a.servers[i], a.terms[args.term].log, args.lastIncludedIndex;
    NodeValid(n, r, i, a.n);
    InstalledIs(n, r.log, l, r.base, args, m);
  }

  lemma SimAdopt(a: Spec, i: nat, n: Node, tally: set<nat>, args: SnapArgs) returns (b: Spec)
    requires Inv(a) && NodeOk(a, i, n, tally) && n.state == Follower && N.Valid(n)
    requires SnapArgsOk(a, args) && args.term == n.currentTerm && args.image.Some?
    requires args.lastIncludedIndex > n.lastApplied
    ensures StepOf(a, b, i) && NodeOk(b, i, N.Adopt(n, args), tally)
    ensures Acked(b, i, args.term, args.lastIncludedIndex)
  {
    hide Inv, Acked, AgreedTo, N.Adopt;
    LogShape(a, i);
    b := SpecAdopt(a, i, args.lastIncludedIndex);
    AdoptNode(a, b, i, n, tally, args);
  }

  lemma SimInstall(a: Spec, i: nat, n: Node, tally: set<nat>, args: SnapArgs)
    returns (b: Spec, m: Node, reply: SnapReply)
    requires Inv(a) && NodeOk(a, i, n, tally) && N.Valid(n)
    requires SnapArgsOk(a, args) && (args.lastIncludedIndex >= 1 ==> args.image.Some?)
    ensures (m, reply) == N.InstallSnapShot(n, args)
    ensures StepOf(a, b, i) && NodeOk(b, i, m, tally)
    ensures reply.term <= args.term ==> Acked(b, i, args.term, args.lastIncludedIndex)
  {
    hide Inv, Acked, AgreedTo, N.Adopt;
    m, reply := N.InstallSnapShot(n, args).0, N.InstallSnapShot(n, args).1;
    if args.term < n.currentTerm {
      b := a;
      StepRefl(a, i);
    } else {
      var c, k := SimNoteTerm(a, i, n, tally, args.term);
      SnapArgsExt(a, c, args);
      if args.lastIncludedIndex <= k.lastApplied {
        b := AcceptHeld(c, i, k, tally, args.lastIncludedIndex);
      } else {
        b := SimAdopt(c, i, k, tally, args);
      }
      StepOfTrans(a, c, b, i);
    }
  }

  // ---- The service's own snapshots, and applying ---------------------------

  lemma SnapshotIs(n: Node, r: Log, b: nat, index: nat, image: Image)
    requires N.Valid(n) && b < index < |r| && n.logs == Suffix(r, b)
    requires N.First(n).index == b && N.Last(n).index == |r| - 1
    requires n.logs[index - b].term == r[index].term && n.logs[index - b].index == index
    ensures N.Snapshot(n, index, image) ==
              N.Persist(n.(lastIncludedIndex := index, lastIncludedTerm := r[index].term,
                           logs := Suffix(r, index)), Some(image))
  {
    SuffixTail(r, b, index);
  }

  lemma SnapshotNode(a: Spec, i: nat, n: Node, tally: set<nat>, index: nat, image: Image)
    requires NodeOk(a, i, n, tally) && N.Valid(n)
    requires a.servers[i].base < index <= n.lastApplied && index < |a.servers[i].log|
    requires N.Snapshot(n, index, image) ==
               N.Persist(n.(lastIncludedIndex := index, lastIncludedTerm := a.servers[i].log[index].term,
                            logs := Suffix(a.servers[i].log, index)), Some(image))
    ensures NodeOk(Compact(a, i, index), i, N.Snapshot(n, index, image), tally)
  {
    hide N.Snapshot, Suffix, N.Valid;
    PutExt(a, i, Compact(a, i, index).servers[i]);
    NodeExtSame(a, Compact(a, i, index), i, n, N.Snapshot(n, index, image), tally);
  }

  lemma SimSnapshot(a: Spec, i: nat, n: Node, tally: set<nat>, index: nat, image: Image)
    returns (b: Spec)
    requires Inv(a) && NodeOk(a, i, n, tally) && N.Valid(n) && index <= n.lastApplied
    ensures StepOf(a, b, i) && NodeOk(b, i, N.Snapshot(n, index, image), tally)
    ensures b.servers[i].base == if index <= a.servers[i].base then a.servers[i].base else index
    ensures b.servers[i].log == a.servers[i].log
  {
    hide Inv, Suffix;
    var r := a.servers[i];
    LogShape(a, i);
    NodeValid(n, r, i, a.n);
    if index <= r.base {
      b := a;
      StepRefl(a, i);
    } else {
      CompactInv(a, i, index);
      SnapshotIs(n, r.log, r.base, index, image);
      SnapshotNode(a, i, n, tally, index, image);
      b := Compact(a, i, index);
    }
  }

  /** What the applier takes: the staged snapshot, or the next committed entry. */
  ghost predicate Takes(n: Node, r: Server, m: Node, msg: Option<ApplyMsg>)
    requires r.commit < |r.log|
  {
    if n.pendingSnapshot.Some? then m == n.(pendingSnapshot := None) && msg == n.pendingSnapshot
    else if n.lastApplied < r.commit then
      && m == n.(lastApplied := n.lastApplied + 1)
      && msg == Some(CommandMsg(n.lastApplied + 1, r.log[n.lastApplied + 1].command))
    else m == n && msg == None
  }

  lemma TakeIs(n: Node, r: Server, i: nat, size: nat)
    requires Core(n, r, i, size) && AppliedOk(n, r) && N.Valid(n) && Shape(r.log)
    requires r.commit < |r.log|
    ensures Takes(n, r, N.Take(n).0, N.Take(n).1)
  {
    hide Suffix;
    NodeValid(n, r, i, size);
    if n.lastApplied < r.commit { SuffixEntry(r.log, r.base, n.lastApplied + 1); }
    hide Shape;
  }

  lemma TakeNode(a: Spec, i: nat, n: Node, tally: set<nat>, m: Node, msg: Option<ApplyMsg>)
    requires NodeOk(a, i, n, tally) && a.servers[i].commit < |a.servers[i].log|
    requires Takes(n, a.servers[i], m, msg)
    ensures NodeOk(a, i, m, tally)
  {
    ExtRefl(a);
    NodeExtSame(a, a, i, n, m, tally);
  }
}
