/**
 * One Raft peer as the object the program has: fields updated in place by the
 * handlers, each the body of one locked section.  Every handler is shown to do
 * to the object exactly what the function of the same name in RaftNode says.
 */
module RaftServer {
  import opened Payload
  import opened RaftTypes
  import N = RaftNode
  import Selection

  class Raft {
    const me: nat
    const peers: nat
    var currentTerm: nat
    var voteFor: int
    var commitIndex: nat
    var lastApplied: nat
    var state: Role
    const nextIndex: array<int>
    const matchIndex: array<int>
    var logs: Log
    var lastIncludedIndex: nat
    var lastIncludedTerm: nat
    var pendingSnapshot: Option<ApplyMsg>
    var grantedVotes: nat
    var persister: Saved

    function Value(): Node
      reads this, nextIndex, matchIndex
    {
      Node(me, peers, currentTerm, voteFor, commitIndex, lastApplied, state,
           nextIndex[..], matchIndex[..], logs, lastIncludedIndex, lastIncludedTerm,
           pendingSnapshot, grantedVotes, persister)
    }

    ghost predicate Valid()
      reads this, nextIndex, matchIndex
    {
      nextIndex != matchIndex && N.Valid(Value())
    }

    /** Make: a fresh peer, or one read back from what was saved. */
    constructor (me: nat, peers: nat, saved: Saved)
      requires me < peers
      requires |saved.logs| >= 1 && N.Valid(N.Make(me, peers, saved))
      ensures Valid() && Value() == N.Make(me, peers, saved)
      ensures fresh(nextIndex) && fresh(matchIndex)
    {
      this.me, this.peers := me, peers;
      currentTerm, voteFor, logs := saved.term, saved.vote, saved.logs;
      commitIndex, lastApplied := saved.logs[0].index, saved.logs[0].index;
      state := Follower;
      lastIncludedIndex, lastIncludedTerm := saved.lastIncludedIndex, saved.lastIncludedTerm;
      pendingSnapshot, grantedVotes, persister := None, 0, saved;
      nextIndex := new int[peers](_ => 1);
      matchIndex := new int[peers](_ => 0);
      new;
      assert nextIndex[..] == N.Fill(peers, 1) && matchIndex[..] == N.Fill(peers, 0);
    }

    method Persist(image: Option<Image>)
      modifies this`persister
      ensures Value() == N.Persist(old(Value()), image)
    {
      persister := Saved(currentTerm, voteFor, logs, lastIncludedIndex, lastIncludedTerm,
                         if image.Some? then image else persister.image);
    }

    method UpdateTermAndStepDown(newTerm: nat)
      modifies this
      ensures Value() == N.UpdateTermAndStepDown(old(Value()), newTerm)
    {
      if newTerm > currentTerm {
        currentTerm, voteFor := newTerm, -1;
        state := Follower;
        Persist(None);
      }
    }

    // ---- Elections ---------------------------------------------------------

    method LaunchElection() returns (args: VoteArgs)
      requires Valid()
      modifies this
      ensures Valid() && Value() == N.LaunchElection(old(Value()))
      ensures args == N.MakeVoteArgs(Value())
    {
      state := Candidate;
      currentTerm := currentTerm + 1;
      Persist(None);
      voteFor := me;
      grantedVotes := 1;
      Persist(None);
      var last := logs[|logs| - 1];
      args := VoteArgs(currentTerm, me, last.index, last.term);
    }

    method RequestVote(args: VoteArgs) returns (reply: VoteReply)
      requires Valid()
      modifies this
      ensures Valid() && (Value(), reply) == N.RequestVote(old(Value()), args)
    {
      if args.term < currentTerm ||
         (args.term == currentTerm && voteFor != -1 && voteFor != args.candidateId) {
        return VoteReply(currentTerm, false);
      }
      UpdateTermAndStepDown(args.term);
      var last := logs[|logs| - 1];
      if !(args.lastLogTerm > last.term ||
           (args.lastLogTerm == last.term && args.lastLogIndex >= last.index)) {
        return VoteReply(currentTerm, false);
      }
      voteFor := args.candidateId;
      Persist(None);
      return VoteReply(currentTerm, true);
    }

    method UpdateLogIndices(peer: nat, matchIdx: int)
      requires Valid() && peer < peers
      modifies nextIndex, matchIndex
      ensures Valid() && Value() == N.SetIndices(old(Value()), peer, matchIdx)
    {
      matchIndex[peer] := matchIdx;
      nextIndex[peer] := matchIdx + 1;
    }

    /** ChangeState(Leader): every peer's indices start over. */
    method BecomeLeader()
      requires Valid()
      modifies this`state, nextIndex, matchIndex
      ensures Valid() && Value() == N.BecomeLeader(old(Value()))
    {
      state := Leader;
      var last := logs[|logs| - 1].index;
      var i := 0;
      while i < peers
        invariant 0 <= i <= peers && state == Leader
        invariant forall k | 0 <= k < i :: nextIndex[k] == last + 1 && matchIndex[k] == 0
      {
        nextIndex[i] := last + 1;
        matchIndex[i] := 0;
        i := i + 1;
      }
      assert nextIndex[..] == N.Fill(peers, last + 1) && matchIndex[..] == N.Fill(peers, 0);
      UpdateLogIndices(me, last);
    }

    method HandleVoteReply(args: VoteArgs, reply: VoteReply)
      requires Valid()
      modifies this, nextIndex, matchIndex
      ensures Valid() && Value() == N.HandleVoteReply(old(Value()), args, reply)
    {
      if state == Candidate && currentTerm == args.term {
        if reply.granted {
          grantedVotes := grantedVotes + 1;
          if grantedVotes > peers / 2 {
            BecomeLeader();
          }
        } else if reply.term > currentTerm {
          UpdateTermAndStepDown(reply.term);
        }
      }
    }

    // ---- Replication -------------------------------------------------------

    method Start(command: Command) returns (index: int, term: int, isLeader: bool)
      requires Valid()
      modifies this, nextIndex, matchIndex
      ensures Valid() && (Value(), index, term, isLeader) == N.Start(old(Value()), command)
    {
      if state != Leader {
        return -1, -1, false;
      }
      var newLatest := logs[|logs| - 1].index + 1;
      logs := logs + [LogEntry(command, currentTerm, newLatest)];
      Persist(None);
      UpdateLogIndices(me, newLatest);
      return newLatest, currentTerm, true;
    }

    method GenAppendEntryArgs(prev: int) returns (args: AppendArgs)
      requires Valid()
      ensures args == N.GenAppendEntryArgs(Value(), prev)
    {
      var first: int, last := logs[0].index, logs[|logs| - 1].index;
      var prevLogIndex := prev;
      if prevLogIndex < first - 1 {
        prevLogIndex := first - 1;
      }
      if prevLogIndex > last {
        prevLogIndex := last;
      }
      var prevLogTerm := 0;
      if prevLogIndex >= first && prevLogIndex - first < |logs| {
        prevLogTerm := logs[prevLogIndex - first].term;
      }
      args := AppendArgs(currentTerm, me, prevLogIndex, prevLogTerm,
                         logs[prevLogIndex - first + 1..], commitIndex);
    }

    /** sort.Search: the bisection, with moving bounds. */
    method Search(n: int, term: int) returns (r: int)
      requires n <= |logs|
      ensures r == N.Search(logs, 0, n, term)
    {
      var i, j := 0, n;
      while i < j
        invariant 0 <= i && j <= |logs|
        invariant N.Search(logs, i, j, term) == N.Search(logs, 0, n, term)
        decreases j - i
      {
        var h := (i + j) / 2;
        if logs[h].term >= term {
          j := h;
        } else {
          i := h + 1;
        }
      }
      r := i;
    }

    method IsLogMatched(index: int, term: nat) returns (matched: bool)
      requires Valid()
      ensures matched == N.LogMatched(Value(), index, term)
    {
      var first := logs[0].index;
      if index < first || index > logs[|logs| - 1].index {
        return false;
      }
      return term == logs[index - first].term;
    }

    /** A majority's match index, selected from a copy of the array. */
    method AcceptNewLogEntries(peer: nat, args: AppendArgs)
      requires Valid() && peer < peers
      modifies this`commitIndex, nextIndex, matchIndex
      ensures Valid() && Value() == N.AcceptNewLogEntries(old(Value()), peer, args)
    {
      UpdateLogIndices(peer, args.prevLogIndex + |args.entries|);
      var dup := new int[peers](i requires 0 <= i < matchIndex.Length reads matchIndex => matchIndex[i]);
      assert dup[..] == matchIndex[..];
      var newCommitIdx := Selection.QuickSelect(dup, peers - (peers / 2 + 1));
      if newCommitIdx > commitIndex {
        var matched := IsLogMatched(newCommitIdx, currentTerm);
        if matched {
          commitIndex := newCommitIdx;
        }
      }
    }

    method RollBackToConflictTerm(peer: nat, args: AppendArgs, reply: AppendReply)
      requires Valid() && peer < peers && args.prevLogIndex <= N.Last(Value()).index
      modifies nextIndex
      ensures Valid() && Value() == N.RollBackToConflictTerm(old(Value()), peer, args, reply)
    {
      hide N.Search;
      var first := logs[0].index;
      var next := reply.conflictIndex;
      if reply.conflictTerm != -1 {
        var offset := Search(args.prevLogIndex - first, reply.conflictTerm);
        var idx := first + offset;
        if idx <= args.prevLogIndex && logs[idx - first].term == reply.conflictTerm {
          next := idx + 1;
        }
      }
      if next < first {
        next := first;
      }
      if next > logs[|logs| - 1].index + 1 {
        next := logs[|logs| - 1].index + 1;
      }
      nextIndex[peer] := next;
    }

    method HandleAppendReply(peer: nat, args: AppendArgs, reply: AppendReply)
      requires Valid() && peer < peers
      requires N.Leads(Value(), args.term) ==> args.prevLogIndex <= N.Last(Value()).index
      modifies this, nextIndex, matchIndex
      ensures Valid() && Value() == N.HandleAppendReply(old(Value()), peer, args, reply)
    {
      if state == Leader && currentTerm == args.term {
        if !reply.success {
          if reply.term > currentTerm {
            UpdateTermAndStepDown(reply.term);
          } else {
            RollBackToConflictTerm(peer, args, reply);
          }
        } else {
          AcceptNewLogEntries(peer, args);
        }
      }
    }

    method HandleSnapReply(peer: nat, args: SnapArgs, reply: SnapReply)
      requires Valid() && peer < peers
      modifies this, nextIndex, matchIndex
      ensures Valid() && Value() == N.HandleSnapReply(old(Value()), peer, args, reply)
    {
      if state == Leader && currentTerm == args.term {
        if reply.term > currentTerm {
          UpdateTermAndStepDown(reply.term);
        } else {
          UpdateLogIndices(peer, args.lastIncludedIndex);
        }
      }
    }

    /** The loop over the entries of a request: store from the first new one. */
    method StoreEntries(args: AppendArgs)
      requires Valid() && N.Numbered(args)
      requires N.First(Value()).index <= args.prevLogIndex <= N.Last(Value()).index
      modifies this
      ensures Valid() && Value() == N.StoreEntries(old(Value()), args)
    {
      N.StoreValid(Value(), args);
      var first := logs[0].index;
      var k := 0;
      while k < |args.entries|
        invariant 0 <= k <= |args.entries|
        invariant Value() == old(Value())
        invariant N.FirstNew(logs, first, args.entries, 0) == N.FirstNew(logs, first, args.entries, k)
      {
        var p := args.entries[k].index - first;
        if p >= |logs| || logs[p].term != args.entries[k].term {
          assert k == N.FirstNew(logs, first, args.entries, 0);
          assert N.KeptPart(Value(), args, k) == logs[..p] by {
            N.FirstNewFits(logs, first, args.entries, 0);
          }
          N.FirstNewFits(logs, first, args.entries, 0);
          logs := logs[..p] + args.entries[k..];
          Persist(None);
          return;
        }
        k := k + 1;
      }
    }

    /** The answer when the previous entry does not match: where to back up to. */
    method Mismatch(args: AppendArgs) returns (reply: AppendReply)
      requires Valid() && N.First(Value()).index <= args.prevLogIndex
      ensures reply == N.Mismatch(Value(), args)
    {
      var first, last := logs[0].index, logs[|logs| - 1].index;
      if last < args.prevLogIndex {
        return AppendReply(currentTerm, false, last + 1, -1);
      }
      var conflictTerm := logs[args.prevLogIndex - first].term;
      var offset := Search(args.prevLogIndex - first + 1, conflictTerm);
      return AppendReply(currentTerm, false, first + offset, conflictTerm);
    }

    method AppendEntry(args: AppendArgs) returns (reply: AppendReply)
      requires Valid() && N.Numbered(args)
      modifies this
      ensures Valid() && (Value(), reply) == N.AppendEntry(old(Value()), args)
    {
      hide N.StoreEntries, N.Mismatch, N.Numbered;
      if args.term < currentTerm {
        return AppendReply(currentTerm, false, 0, 0);
      }
      UpdateTermAndStepDown(args.term);
      state := Follower;
      var first := logs[0].index;
      if args.prevLogIndex < first {
        return AppendReply(currentTerm, false, first, -1);
      }
      var matched := IsLogMatched(args.prevLogIndex, args.prevLogTerm);
      if !matched {
        reply := Mismatch(args);
        return;
      }
      StoreEntries(args);
      var last := logs[|logs| - 1].index;
      var newCommitIdx := if args.leaderCommit < last then args.leaderCommit else last;
      if newCommitIdx > commitIndex {
        commitIndex := newCommitIdx;
      }
      return AppendReply(currentTerm, true, 0, 0);
    }

    // ---- Snapshots and applying --------------------------------------------

    method Snapshot(index: nat, image: Image)
      requires Valid()
      modifies this
      ensures Valid() && Value() == N.Snapshot(old(Value()), index, image)
    {
      var first := logs[0].index;
      if index <= first || index > logs[|logs| - 1].index {
        return;
      }
      var b := index - first;
      lastIncludedIndex := logs[b].index;
      lastIncludedTerm := logs[b].term;
      logs := logs[b..];
      logs := logs[0 := logs[0].(command := Nil)];
      assert logs == [old(logs)[b].(command := Nil)] + old(logs)[b + 1..];
      Persist(Some(image));
    }

    /** Replace the log up to the snapshot, keeping what follows if it agrees. */
    method InstalledLog(args: SnapArgs) returns (newLogs: Log)
      requires Valid()
      ensures newLogs == N.InstalledLog(Value(), args)
      ensures |newLogs| >= 1
      ensures forall i | 0 <= i < |newLogs| :: newLogs[i].index == newLogs[0].index + i
    {
      var first := logs[0].index;
      newLogs := logs;
      var single := N.SingleLog(args.lastIncludedIndex, args.lastIncludedTerm);
      if args.lastIncludedIndex >= logs[|logs| - 1].index {
        newLogs := single;
      } else if args.lastIncludedIndex >= first {
        var i := args.lastIncludedIndex - first;
        if i < |logs| && logs[i].term != args.lastIncludedTerm {
          newLogs := single;
        } else if i + 1 < |logs| {
          newLogs := single + logs[i + 1..];
        } else {
          newLogs := single;
        }
      }
    }

    method RaiseIndices(index: nat)
      modifies `commitIndex, `lastApplied
      ensures commitIndex == N.Max(old(commitIndex), index) && lastApplied == N.Max(old(lastApplied), index)
    {
      if index > commitIndex { commitIndex := index; }
      if index > lastApplied { lastApplied := index; }
    }

    method Adopt(args: SnapArgs)
      requires Valid()
      modifies this
      ensures Valid() && Value() == N.Adopt(old(Value()), args)
    {
      hide N.InstalledLog;
      logs := InstalledLog(args);
      lastIncludedIndex := args.lastIncludedIndex;
      lastIncludedTerm := args.lastIncludedTerm;
      RaiseIndices(args.lastIncludedIndex);
      Persist(args.image);
      pendingSnapshot :=
        Some(SnapshotMsg(args.lastIncludedIndex, args.lastIncludedTerm, args.image));
    }

    method InstallSnapShot(args: SnapArgs) returns (reply: SnapReply)
      requires Valid()
      modifies this
      ensures Valid() && (Value(), reply) == N.InstallSnapShot(old(Value()), args)
    {
      reply := SnapReply(currentTerm);
      if args.term < currentTerm {
        return;
      }
      if args.term > currentTerm {
        currentTerm, voteFor := args.term, -1;
      }
      state := Follower;
      if args.lastIncludedIndex <= lastApplied {
        return;
      }
      Adopt(args);
    }

    /** One round of the applier's loop. */
    method Take() returns (msg: Option<ApplyMsg>)
      requires Valid()
      modifies this
      ensures Valid() && (Value(), msg) == N.Take(old(Value()))
    {
      msg := None;
      if commitIndex <= lastApplied && pendingSnapshot.None? {
        return;
      }
      if pendingSnapshot.Some? {
        msg := pendingSnapshot;
        pendingSnapshot := None;
        return;
      }
      var first := logs[0].index;
      if lastApplied < first {
        lastApplied := first;
        return;
      }
      var next := lastApplied + 1;
      if next > commitIndex {
        return;
      }
      var i := next - first;
      if i < 0 || i >= |logs| {
        lastApplied := first;
        return;
      }
      msg := Some(CommandMsg(logs[i].index, logs[i].command));
      lastApplied := next;
    }
  }
}
