/** Backing up over a whole term at a time after a rejected AppendEntry. */
module FastBackup {
  import opened RaftTypes
  import opened RaftNode

  ghost predicate TermsSorted(logs: Log) {
    forall i, k | 0 <= i <= k < |logs| :: logs[i].term <= logs[k].term
  }

  /** The bisection of [i, j) splits [0, n) at the first entry of the term or later. */
  lemma {:induction false} SearchFinds(logs: Log, i: int, j: int, n: int, term: int)
    requires TermsSorted(logs) && 0 <= i <= j <= n <= |logs|
    requires forall k | 0 <= k < i :: logs[k].term < term
    requires forall k | j <= k < n :: logs[k].term >= term
    ensures forall k | 0 <= k < Search(logs, i, j, term) :: logs[k].term < term
    ensures forall k | Search(logs, i, j, term) <= k < n :: logs[k].term >= term
    decreases j - i
  {
    if i < j {
      var h := (i + j) / 2;
      if logs[h].term >= term {
        SearchFinds(logs, i, h, n, term);
      } else {
        SearchFinds(logs, h + 1, j, n, term);
      }
    }
  }

  /**
   * What a follower answers when the previous entry does not match: one past
   * its log, or the first index at which it has the conflicting term.
   */
  lemma ConflictIsFirst(m: Node, args: AppendArgs)
    requires Valid(m) && TermsSorted(m.logs)
    requires First(m).index <= args.prevLogIndex
    ensures var r := Mismatch(m, args); var first := First(m).index;
            if args.prevLogIndex > Last(m).index
            then r.conflictTerm == -1 && r.conflictIndex == Last(m).index + 1
            else
              && first <= r.conflictIndex <= args.prevLogIndex
              && r.conflictTerm == m.logs[args.prevLogIndex - first].term
              && m.logs[r.conflictIndex - first].term == r.conflictTerm
              && (forall i | 0 <= i < r.conflictIndex - first :: m.logs[i].term < r.conflictTerm)
  {
    var i := args.prevLogIndex - First(m).index;
    if args.prevLogIndex <= Last(m).index {
      SearchFinds(m.logs, 0, i + 1, i + 1, m.logs[i].term);
    }
  }

  /**
   * A rejection moves the leader back: it next tries a strictly earlier entry,
   * or is left at its own snapshot and will send that.
   */
  lemma BackupProgress(n: Node, m: Node, peer: nat, args: AppendArgs)
    requires Valid(n) && Valid(m) && TermsSorted(n.logs) && TermsSorted(m.logs)
    requires peer < n.peers && 0 <= args.prevLogIndex <= Last(n).index
    // the leader's log still has the entry the request named, unless compacted
    requires First(n).index <= args.prevLogIndex ==>
               n.logs[args.prevLogIndex - First(n).index].term == args.prevLogTerm
    // the follower rejected because that entry was missing from its log
    requires First(m).index <= args.prevLogIndex
    requires !LogMatched(m, args.prevLogIndex, args.prevLogTerm)
    ensures var next := RollBackToConflictTerm(n, peer, args, Mismatch(m, args)).nextIndex[peer];
            && First(n).index <= next
            && (next <= args.prevLogIndex || next == First(n).index)
            && (next == First(n).index ==> Behind(RollBackToConflictTerm(n, peer, args, Mismatch(m, args)), peer))
  {
    ConflictIsFirst(m, args);
    var reply := Mismatch(m, args);
    var size := args.prevLogIndex - First(n).index;
    if reply.conflictTerm != -1 && size >= 0 {
      SearchFinds(n.logs, 0, size, size, reply.conflictTerm);
    }
  }
}
