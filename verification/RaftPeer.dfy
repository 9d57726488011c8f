/** The Raft peer as the program has it: fields updated in place, one method per lock-held section. */
module RaftPeer {
  import opened RaftLog
  import opened RaftNode

  class Raft {
    const me: nat
    const peers: nat

    // persistent
    var currentTerm: nat
    var votedFor: int
    var log: Log
    var snapshotData: Snapshot
    var lastIncludedIndex: nat
    var persister: Persisted

    // volatile
    var commitIndex: nat
    var lastApplied: nat
    var role: Role
    var snapshotPending: bool
    const nextIndex: array<nat>
    const matchIndex: array<nat>

    ghost predicate Valid()
      reads this
    {
      |log| > 0 && nextIndex.Length == peers && matchIndex.Length == peers && nextIndex != matchIndex
    }

    ghost function State(): (n: Node)
      requires Valid()
      reads this, nextIndex, matchIndex
      ensures n.Valid(peers)
    {
      Node(currentTerm, votedFor, log, snapshotData, lastIncludedIndex, commitIndex, lastApplied, role,
           nextIndex[..], matchIndex[..], snapshotPending, persister)
    }

    /** Make, reading whatever an earlier life persisted. */
    constructor (peers: nat, me: nat, disk: Persisted)
      requires |disk.log| > 0
      ensures Valid() && fresh(nextIndex) && fresh(matchIndex)
      ensures this.peers == peers && this.me == me && State() == Restart(disk, peers)
    {
      this.peers, this.me := peers, me;
      currentTerm, votedFor, log := disk.term, disk.votedFor, disk.log;
      lastIncludedIndex, snapshotData, persister := disk.snapshotIndex, disk.snapshot, disk;
      lastApplied, commitIndex := disk.snapshotIndex, disk.snapshotIndex;
      role, snapshotPending := Follower, false;
      nextIndex, matchIndex := new nat[peers](_ => 0), new nat[peers](_ => 0);
      new;
      assert nextIndex[..] == seq(peers, i => 0);
      assert matchIndex[..] == seq(peers, i => 0);
    }

    method Persist()
      requires Valid()
      modifies this
      ensures Valid() && State() == RaftNode.Persist(old(State()))
    {
      persister := Persisted(currentTerm, votedFor, log, lastIncludedIndex, snapshotData);
    }

    method BecomeFollowerWithTerm(term: nat)
      requires Valid()
      modifies this
      ensures Valid() && State() == BecomeFollower(old(State()), term)
    {
      role := Follower;
      currentTerm := term;
      votedFor := NOBODY;
      Persist();
    }

    // ----- elections -----

    method StartElection() returns (args: VoteArgs)
      requires Valid()
      modifies this
      ensures Valid() && (State(), args) == RaftNode.StartElection(old(State()), me)
    {
      currentTerm := currentTerm + 1;
      role := Candidate;
      votedFor := me;
      Persist();
      args := VoteArgs(currentTerm, me, |log| - 1 + lastIncludedIndex, log[|log| - 1].term);
    }

    method RequestVote(args: VoteArgs) returns (reply: VoteReply)
      requires Valid()
      modifies this
      ensures Valid() && (State(), reply) == OnRequestVote(old(State()), args)
    {
      reply := VoteReply(0, false);
      if currentTerm < args.term {
        BecomeFollowerWithTerm(args.term);
      }
      if args.term >= currentTerm && (votedFor == args.candidate || votedFor == NOBODY) {
        var lastTerm, lastIndex := log[|log| - 1].term, |log| - 1 + lastIncludedIndex;
        if args.lastLogTerm > lastTerm || (args.lastLogTerm == lastTerm && args.lastLogIndex >= lastIndex) {
          reply := VoteReply(currentTerm, true);
          votedFor := args.candidate;
          role := Follower;
          Persist();
        }
      } else {
        reply := VoteReply(currentTerm, false);
      }
    }

    /** What the goroutine of one vote request does with the answer. */
    method CountVote(e: Election, reply: VoteReply) returns (e': Election)
      requires Valid()
      modifies this, nextIndex, matchIndex
      ensures Valid() && (State(), e') == OnVoteReply(old(State()), e, peers, reply)
    {
      e' := e;
      if reply.term > currentTerm {
        BecomeFollowerWithTerm(reply.term);
        return;
      }
      if reply.granted {
        if role != Candidate || reply.term != currentTerm {
          return;
        }
        e' := e.(votes := e.votes + 1);
        if e'.votes > peers / 2 && !e.won {
          e' := e'.(won := true);
          role := Leader;
          ResetIndexes(|log| - 1 + lastIncludedIndex + 1);
        }
      }
    }

    method ResetIndexes(next: nat)
      requires Valid()
      modifies nextIndex, matchIndex
      ensures Valid()
      ensures nextIndex[..] == seq(peers, j => next) && matchIndex[..] == seq(peers, j => 0)
    {
      for j := 0 to nextIndex.Length
        invariant forall i :: 0 <= i < j ==> nextIndex[i] == next
      {
        nextIndex[j] := next;
      }
      for j := 0 to matchIndex.Length
        invariant forall i :: 0 <= i < nextIndex.Length ==> nextIndex[i] == next
        invariant forall i :: 0 <= i < j ==> matchIndex[i] == 0
      {
        matchIndex[j] := 0;
      }
    }

    // ----- log replication -----

    method Start(command: Command) returns (index: int, term: int, isLeader: bool)
      requires Valid()
      modifies this
      ensures Valid() && State() == Propose(old(State()), command)
      ensures isLeader == (old(role) == Leader)
      ensures if isLeader
              then index == State().LastIndex() && term == currentTerm && log[|log| - 1] == Entry(currentTerm, command)
              else (index, term) == (-1, -1)
    {
      index, term, isLeader := -1, -1, false;
      if role == Leader {
        log := log + [Entry(currentTerm, command)];
        Persist();
        index, term, isLeader := |log| - 1 + lastIncludedIndex, currentTerm, true;
      }
    }

    method AppendEntries(args: AppendArgs) returns (reply: AppendReply)
      requires Valid()
      modifies this
      ensures Valid() && (State(), reply) == OnAppendEntries(old(State()), args)
    {
      if currentTerm < args.term {
        BecomeFollowerWithTerm(args.term);
      } else if currentTerm == args.term {
        if role == Candidate {
          role := Follower;
        }
      } else {
        return AppendReply(currentTerm, false, 0, 0);
      }
      reply := JudgeEntries(args);
    }

    /** The consistency check and, if it passes, the entries, in the term of the request. */
    method JudgeEntries(args: AppendArgs) returns (reply: AppendReply)
      requires Valid()
      modifies this
      ensures Valid() && (State(), reply) == Judged(old(State()), args)
    {
      var lastIndex := |log| - 1 + lastIncludedIndex;
      if args.prevLogIndex < lastIncludedIndex {
        return AppendReply(currentTerm, false, NO_TERM, lastIncludedIndex + 1);
      } else if args.prevLogIndex > lastIndex {
        return AppendReply(currentTerm, false, NO_TERM, lastIndex + 1);
      } else if args.prevLogTerm != log[args.prevLogIndex - lastIncludedIndex].term {
        var conflictTerm := log[args.prevLogIndex - lastIncludedIndex].term;
        var conflictIndex := FindConflictStart(args.prevLogIndex, conflictTerm);
        return AppendReply(currentTerm, false, conflictTerm, conflictIndex);
      }
      reply := AppendReply(currentTerm, true, 0, 0);
      MergeEntries(args.prevLogIndex + 1 - lastIncludedIndex, args.entries);
      if args.leaderCommit > commitIndex {
        commitIndex := Min(args.leaderCommit, |log| - 1 + lastIncludedIndex);
      }
    }

    /** The first index of the run of `term` that ends at `prev`, or the first one not compacted. */
    method FindConflictStart(prev: nat, term: nat) returns (index: nat)
      requires Valid() && State().InLog(prev)
      ensures index == ConflictStart(State(), prev, term)
    {
      var i := prev;
      while i > lastIncludedIndex && log[i - lastIncludedIndex].term == term
        invariant State().InLog(i) && ConflictStart(State(), i, term) == ConflictStart(State(), prev, term)
      {
        i := i - 1;
      }
      index := i + 1;
    }

    method MergeEntries(at: nat, entries: Log)
      requires Valid() && at <= |log|
      modifies this
      ensures Valid()
      ensures var n := old(State());
        State() == (if MatchLength(n.log, at, entries) < |entries|
                    then RaftNode.Persist(n.(log := Spliced(n.log, at, entries))) else n)
    {
      var i := 0;
      while i < |entries| && at + i < |log| && entries[i].term == log[at + i].term
        invariant Valid() && 0 <= i <= |entries| && at + i <= |log|
        invariant MatchLength(log, at, entries) == i + MatchLength(log, at + i, entries[i..])
        invariant State() == old(State())
      {
        MatchLengthStep(log, at + i, entries[i..]);
        assert entries[i..][1..] == entries[i + 1..];
        i := i + 1;
      }
      if i < |entries| {
        log := log[..at + i] + entries[i..];
        Persist();
      }
    }

    // ----- snapshots -----

    /** The service has everything up to `index` in `data`. False: the index was beyond the log. */
    method TrimLog(index: nat, data: Snapshot) returns (alive: bool)
      requires Valid()
      modifies this
      ensures Valid() && (alive ==> OnSnapshot(old(State()), index, data) == Lives(State()))
      ensures !alive ==> OnSnapshot(old(State()), index, data) == Died && persister == old(persister)
    {
      if index <= lastIncludedIndex {
        return true;
      }
      if index - lastIncludedIndex >= |log| {
        return false;
      }
      log := log[index - lastIncludedIndex..];
      lastIncludedIndex := index;
      snapshotData := data;
      Persist();
      alive := true;
    }

    method InstallSnapshot(args: SnapshotArgs) returns (term: nat)
      requires Valid()
      modifies this
      ensures Valid() && (State(), term) == OnInstallSnapshot(old(State()), args)
    {
      term := currentTerm;
      if currentTerm > args.term {
        return;
      }
      if currentTerm < args.term {
        BecomeFollowerWithTerm(args.term);
        term := currentTerm;
      }
      StoreSnapshot(args);
    }

    /** The part of InstallSnapshot in the term of the request. */
    method StoreSnapshot(args: SnapshotArgs)
      requires Valid()
      modifies this
      ensures Valid() && State() == Installed(old(State()), args)
    {
      if lastIncludedIndex < args.lastIncluded {
        snapshotData := args.data;
        if |log| - 1 + lastIncludedIndex >= args.lastIncluded &&
           log[args.lastIncluded - lastIncludedIndex].term == args.lastIncludedTerm
        {
          log := log[args.lastIncluded - lastIncludedIndex..];
          lastIncludedIndex := args.lastIncluded;
        } else {
          log := [Entry(args.lastIncludedTerm, NoCommand)];
          lastIncludedIndex := args.lastIncluded;
        }
        if lastApplied < args.lastIncluded {
          commitIndex := Max(args.lastIncluded, commitIndex);
          snapshotPending := true;
        }
        Persist();
      }
    }

    // ----- the leader's side -----

    /** First half of replicateToFollower. */
    method Replicate(i: nat) returns (o: Outcome<Outgoing>)
      requires Valid() && i < peers
      ensures o == Send(State(), me, i)
    {
      if role != Leader {
        return Lives(Silent);
      }
      if lastIncludedIndex >= nextIndex[i] {
        return Lives(Install(SnapshotArgs(currentTerm, me, lastIncludedIndex, log[0].term, snapshotData)));
      }
      if nextIndex[i] - lastIncludedIndex > |log| {
        return Died;
      }
      var entries := CopyEntries(nextIndex[i] - lastIncludedIndex);
      o := Lives(Append(AppendArgs(currentTerm, me, nextIndex[i] - 1, log[nextIndex[i] - 1 - lastIncludedIndex].term,
                                   entries, commitIndex)));
    }

    method CopyEntries(start: nat) returns (entries: Log)
      requires Valid() && start <= |log|
      ensures entries == log[start..]
    {
      entries := [];
      for j := start to |log|
        invariant entries == log[start..j]
      {
        entries := entries + [Entry(log[j].term, log[j].command)];
      }
    }

    /** False: the scan left the log slice. */
    method AdvanceCommitIndex() returns (alive: bool)
      requires Valid()
      modifies this
      ensures Valid() && (alive ==> AdvanceCommit(old(State()), me) == Lives(State()))
      ensures !alive ==> AdvanceCommit(old(State()), me) == Died && persister == old(persister)
    {
      var index := |log| - 1 + lastIncludedIndex;
      while index > commitIndex
        invariant Valid() && State() == old(State()) && 0 <= index < lastIncludedIndex + |log|
        invariant CommitFrom(State(), me, index) == CommitFrom(State(), me, State().LastIndex())
      {
        if index < lastIncludedIndex {
          return false;
        }
        if log[index - lastIncludedIndex].term != currentTerm {
          return true;
        }
        var count := CountHolders(index);
        if count > peers / 2 {
          commitIndex := index;
          return true;
        }
        index := index - 1;
      }
      alive := true;
    }

    method CountHolders(index: nat) returns (count: nat)
      requires Valid()
      ensures count == Holders(matchIndex[..], me, index)
    {
      count := 1;
      for j := 0 to peers
        invariant count == Holders(matchIndex[..j], me, index)
      {
        assert matchIndex[..j + 1][..j] == matchIndex[..j];
        if j != me && matchIndex[j] >= index {
          count := count + 1;
        }
      }
      assert matchIndex[..peers] == matchIndex[..];
    }

    /** Second half of replicateToFollower, after an AppendEntries. */
    method HandleAppendReply(i: nat, args: AppendArgs, reply: AppendReply) returns (alive: bool)
      requires Valid() && i < peers
      modifies this, nextIndex, matchIndex
      ensures Valid() && (alive ==> OnAppendReply(old(State()), me, i, args, reply) == Lives(State()))
      ensures !alive ==> OnAppendReply(old(State()), me, i, args, reply) == Died && persister == old(persister)
    {
      alive := true;
      if reply.term > currentTerm {
        BecomeFollowerWithTerm(reply.term);
      } else if reply.success {
        alive := HandleMatch(i, args.prevLogIndex + |args.entries|);
      } else if args.prevLogIndex > matchIndex[i] {
        var next := reply.conflictIndex;
        if reply.conflictTerm != NO_TERM {
          alive, next := SearchTerm(args.prevLogIndex, reply.conflictIndex, reply.conflictTerm);
        }
        if alive {
          UpdateAt(nextIndex, i, Max(next, matchIndex[i] + 1));
        }
      }
    }

    /** Second half of replicateToFollower, after an InstallSnapshot. */
    method HandleSnapshotReply(i: nat, args: SnapshotArgs, term: nat) returns (alive: bool)
      requires Valid() && i < peers
      modifies this, nextIndex, matchIndex
      ensures Valid() && (alive ==> OnSnapshotReply(old(State()), me, i, args, term) == Lives(State()))
      ensures !alive ==> OnSnapshotReply(old(State()), me, i, args, term) == Died && persister == old(persister)
    {
      alive := true;
      if term > currentTerm {
        BecomeFollowerWithTerm(term);
      } else {
        alive := HandleMatch(i, args.lastIncluded);
      }
    }

    method HandleMatch(i: nat, index: nat) returns (alive: bool)
      requires Valid() && i < peers
      modifies this, nextIndex, matchIndex
      ensures Valid() && (alive ==> Matched(old(State()), me, i, index) == Lives(State()))
      ensures !alive ==> Matched(old(State()), me, i, index) == Died && persister == old(persister)
    {
      if matchIndex[i] >= index {
        return true;
      }
      UpdateAt(matchIndex, i, index);
      UpdateAt(nextIndex, i, index + 1);
      alive := AdvanceCommitIndex();
    }

    static method UpdateAt(a: array<nat>, i: nat, value: nat)
      requires i < a.Length
      modifies a
      ensures a[..] == old(a[..])[i := value]
    {
      a[i] := value;
    }

    method SearchTerm(prev: nat, floor: nat, term: int) returns (alive: bool, next: nat)
      requires Valid()
      ensures Backtrack(State(), prev, floor, term) == (if alive then Lives(next) else Died)
    {
      var j: int := prev;
      alive, next := true, floor;
      while j >= lastIncludedIndex && j >= floor
        invariant Backtrack(State(), j, floor, term) == Backtrack(State(), prev, floor, term)
        invariant j >= -1
      {
        if j - lastIncludedIndex >= |log| {
          return false, 0;
        }
        if log[j - lastIncludedIndex].term == term {
          return true, j + 1;
        }
        j := j - 1;
      }
    }

    // ----- the applier -----

    method TakeNext() returns (alive: bool, taken: Taken)
      requires Valid()
      modifies this
      ensures Valid() && (alive ==> TakeMessage(old(State())) == Lives((State(), taken)))
      ensures !alive ==> TakeMessage(old(State())) == Died && persister == old(persister)
    {
      alive, taken := true, Nothing;
      if snapshotPending {
        taken := Message(SnapshotMsg(lastIncludedIndex, log[0].term, snapshotData));
        snapshotPending := false;
      } else if lastApplied < commitIndex {
        if lastIncludedIndex <= lastApplied + 1 < lastIncludedIndex + |log| {
          taken := Message(CommandMsg(lastApplied + 1, log[lastApplied + 1 - lastIncludedIndex].command));
        } else {
          alive := false;
        }
      }
    }

    method FinishNext(msg: ApplyMsg)
      requires Valid()
      modifies this
      ensures Valid() && State() == FinishMessage(old(State()), msg)
    {
      if msg.SnapshotMsg? {
        lastApplied := msg.index;
      } else {
        lastApplied := lastApplied + 1;
      }
    }
  }

  lemma MatchLengthStep(log: Log, at: nat, entries: Log)
    requires entries != [] && at < |log| && entries[0].term == log[at].term
    ensures MatchLength(log, at, entries) == 1 + MatchLength(log, at + 1, entries[1..])
  {
  }
}
