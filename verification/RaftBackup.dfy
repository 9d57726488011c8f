/** How a leader finds the point where a follower's log parts from its own, and how the commit
    indexes advance. */
module RaftBackup {
  import opened RaftLog
  import opened RaftNode
  import opened RaftCompaction
  import opened RaftCluster
  import opened RaftClusterProof
  import opened RaftCommit
  import opened RaftSafety
  import C = RaftCore
  import P = RaftCoreProof

  // ----- fast backup -----

  /** The logs agree on exactly the first m entries. */
  ghost predicate CommonLength(a: Log, b: Log, m: nat) {
    Agree(a, b, m) && (m < |a| && m < |b| ==> a[m] != b[m])
  }

  /** After a term mismatch at `prev` the leader goes back, but not past what the logs have in
      common, unless that is compacted away. */
  lemma MismatchBackup(l: Node, lf: Log, f: Node, ff: Log, prev: nat, m: nat)
    requires Compacts(l.log, l.lastIncluded, lf) && Compacts(f.log, f.lastIncluded, ff) && CommonLength(lf, ff, m)
    requires f.lastIncluded < prev < |ff| && prev < |lf| && ff[prev].term != lf[prev].term
    ensures var o := Backtrack(l, prev, ConflictStart(f, prev, f.TermAt(prev)), f.TermAt(prev));
      o.Lives? && 1 <= o.value <= prev && (m <= o.value || m <= l.lastIncluded)
  {
    var term := f.TermAt(prev);
    var start := ConflictStart(f, prev, term);
    CompactsAt(f.log, f.lastIncluded, ff, prev);
    if prev >= l.lastIncluded { CompactsAt(l.log, l.lastIncluded, lf, prev); }
    ConflictStartSpec(f, prev, term);
    BacktrackSpec(l, prev, start, term);
    ScansMeet(l, lf, f, ff, prev, m, start, Backtrack(l, prev, start, term).value);
  }

  /** The logs have the same entry at m - 1, which the leader's scan cannot have passed over. */
  lemma ScansMeet(l: Node, lf: Log, f: Node, ff: Log, prev: nat, m: nat, start: nat, k: nat)
    requires Compacts(l.log, l.lastIncluded, lf) && Compacts(f.log, f.lastIncluded, ff) && CommonLength(lf, ff, m)
    requires prev < |ff| && prev < |lf| && ff[prev].term != lf[prev].term && f.lastIncluded < start <= k
    requires forall j: nat :: start <= j <= prev ==> f.InLog(j) && f.TermAt(j) == ff[prev].term
    requires forall i: nat :: k <= i <= prev && l.lastIncluded <= i ==> l.InLog(i) && l.TermAt(i) != ff[prev].term
    ensures m <= k || m <= l.lastIncluded
  {
    if prev < m { AgreeAt(lf, ff, m, prev); }
    if l.lastIncluded < m && f.lastIncluded < m {
      AgreeAt(lf, ff, m, m - 1);
      CompactsAt(f.log, f.lastIncluded, ff, m - 1);
      CompactsAt(l.log, l.lastIncluded, lf, m - 1);
      assert f.TermAt(m - 1) == l.TermAt(m - 1);
    }
  }

  /** What a follower answers when it refuses a request of its own term. */
  lemma RefusalBackup(l: Node, lf: Log, f: Node, ff: Log, a: AppendArgs, m: nat) returns (k: nat)
    requires Compacts(l.log, l.lastIncluded, lf) && Compacts(f.log, f.lastIncluded, ff) && CommonLength(lf, ff, m)
    requires a.prevLogIndex < |lf| && a.prevLogTerm == lf[a.prevLogIndex].term && !Judged(f, a).1.success
    requires a.prevLogIndex >= f.lastIncluded && lf[f.lastIncluded].term == ff[f.lastIncluded].term
    ensures BackTo(l, a, Judged(f, a).1, k) && 1 <= k <= a.prevLogIndex && (m <= k || m <= l.lastIncluded)
  {
    var r := Judged(f, a).1;
    if a.prevLogIndex < |ff| {
      CompactsAt(f.log, f.lastIncluded, ff, a.prevLogIndex);
      MismatchBackup(l, lf, f, ff, a.prevLogIndex, m);
      k := Backtrack(l, a.prevLogIndex, r.conflictIndex, r.conflictTerm).value;
    } else {
      k := r.conflictIndex;
    }
  }

  /**
   * Fast backup: follower f refuses at time i a request of the term that leader s still holds when
   * it handles the answer, at time j. If the refusal was for a short log or a wrong term, the next
   * index falls below the one probed, and not below the first index where the logs differ unless
   * that is at or below the leader's last compacted index. If it was because f has compacted the
   * index away, the leader will probe at f's last compacted index, where the terms match, or send
   * its snapshot.
   */
  lemma FastBackup(states: seq<Cluster>, steps: seq<Step>, i: nat, j: nat, f: nat, s: nat, a: AppendArgs, m: nat)
    requires SoundRun(states, steps) && i <= j < |states| && f < |states[i].peers| && s < |states[j].peers|
    requires AppendRequest(f, a) in states[i].net
    requires states[i].peers[f].node.term <= a.term && |states[i].peers[f].node.log| > 0
    requires !OnAppendEntries(states[i].peers[f].node, a).1.success
    requires states[j].peers[s].node.role == Leader && states[j].peers[s].node.term == a.term
    requires f < |states[i].core.log| && s < |states[j].core.log|
    requires CommonLength(states[j].core.log[s], states[i].core.log[f], m)
    requires states[j].peers[s].node.Valid(|states[j].peers|) && f < |states[j].peers|
    requires a.prevLogIndex > states[j].peers[s].node.matchIndex[f]
    ensures var x := states[i].peers[f].node; var l := states[j].peers[s].node;
      var o := OnAppendReply(l, s, f, a, OnAppendEntries(x, a).1);
      && o.Lives?
      && var next := o.value.nextIndex[f];
         if a.prevLogIndex < x.lastIncluded then
           && next == Max(x.lastIncluded, l.matchIndex[f]) + 1
           && (l.lastIncluded <= x.lastIncluded ==>
                 l.InLog(x.lastIncluded) && l.TermAt(x.lastIncluded) == x.TermAt(x.lastIncluded))
         else
           next <= a.prevLogIndex && (m <= next || next <= l.lastIncluded)
  {
    var x, l := states[i].peers[f].node, states[j].peers[s].node;
    var y := Heard(x, a.term);
    BackupFacts(states, steps, i, j, f, s, a);
    var lf, ff := states[j].core.log[s], states[i].core.log[f];
    var r := Judged(y, a).1;
    AgreeAt(ff, lf, x.lastIncluded + 1, x.lastIncluded);
    if a.prevLogIndex < x.lastIncluded {
      Retries(l, s, f, a, r, r.conflictIndex);
      if l.lastIncluded <= x.lastIncluded {
        CompactsAt(l.log, l.lastIncluded, lf, x.lastIncluded);
        CompactsAt(x.log, x.lastIncluded, ff, x.lastIncluded);
      }
    } else {
      var k := RefusalBackup(l, lf, y, ff, a, m);
      Retries(l, s, f, a, r, k);
    }
  }

  /** Where the refusal sends the leader back to. */
  ghost predicate BackTo(l: Node, a: AppendArgs, r: AppendReply, k: nat) {
    if r.conflictTerm == NO_TERM then k == r.conflictIndex
    else Backtrack(l, a.prevLogIndex, r.conflictIndex, r.conflictTerm) == Lives(k)
  }

  lemma Retries(l: Node, s: nat, f: nat, a: AppendArgs, r: AppendReply, k: nat)
    requires |l.log| > 0 && f < |l.nextIndex| && f < |l.matchIndex| && r.term <= l.term && !r.success
    requires a.prevLogIndex > l.matchIndex[f] && BackTo(l, a, r, k)
    ensures OnAppendReply(l, s, f, a, r) == Lives(l.(nextIndex := l.nextIndex[f := Max(k, l.matchIndex[f] + 1)]))
  {
  }

  /** What the invariants say about the two ends of a refusal. */
  lemma BackupFacts(states: seq<Cluster>, steps: seq<Step>, i: nat, j: nat, f: nat, s: nat, a: AppendArgs)
    requires SoundRun(states, steps) && i <= j < |states| && f < |states[i].peers| && s < |states[j].peers|
    requires AppendRequest(f, a) in states[i].net && states[i].peers[f].node.term <= a.term
    requires states[j].peers[s].node.role == Leader && states[j].peers[s].node.term == a.term
    ensures f < |states[i].core.log| && s < |states[j].core.log|
    ensures var x := states[i].peers[f].node; var l := states[j].peers[s].node;
      var lf := states[j].core.log[s]; var ff := states[i].core.log[f];
      && Compacts(x.log, x.lastIncluded, ff) && Compacts(l.log, l.lastIncluded, lf)
      && a.prevLogIndex < |lf| && a.prevLogTerm == lf[a.prevLogIndex].term
      && Agree(ff, lf, x.lastIncluded + 1)
  {
    LogAt(states, steps, i, f);
    LogAt(states, steps, j, s);
    ProbeIsLeaders(states, steps, i, j, f, s, a);
    var x := states[i].peers[f].node;
    PeerAt(states, steps, i, f);
    LeadersAreComplete(states, steps, i, j, f, s);
    AgreeShorter(states[i].core.log[f], states[j].core.log[s], x.commitIndex + 1, x.lastIncluded + 1);
  }

  /** A request names an entry that its leader still has in its uncompacted log. */
  lemma ProbeIsLeaders(states: seq<Cluster>, steps: seq<Step>, i: nat, j: nat, f: nat, s: nat, a: AppendArgs)
    requires Run(states, steps) && i <= j < |states| && s < |states[j].peers|
    requires AppendRequest(f, a) in states[i].net
    requires states[j].peers[s].node.role == Leader && states[j].peers[s].node.term == a.term
    ensures s < |states[j].core.log|
    ensures a.prevLogIndex < |states[j].core.log[s]| && a.prevLogTerm == states[j].core.log[s][a.prevLogIndex].term
  {
    ReignAt(states, steps, j, s);
    RunGrows(states, steps, i, j);
    RunInv(states, steps, i);
    assert MessageOk(states[i].core, AppendRequest(f, a));
    LeaderPrefix(states[i].core, states[j].core, a.term, a.prevLogIndex);
    AgreeAt(states[j].core.LeaderLog(a.term), states[i].core.LeaderLog(a.term), a.prevLogIndex + 1, a.prevLogIndex);
  }

  // ----- commit indexes -----

  /** Giving up at the first entry of an older term loses nothing, because terms never fall. */
  lemma {:induction false} CommitFromIsLargest(n: Node, me: nat, index: nat, better: nat)
    requires |n.log| > 0 && n.lastIncluded <= n.commitIndex && index < n.lastIncluded + |n.log|
    requires Sorted(n.log) && LastTerm(n.log) <= n.term
    requires n.commitIndex < better <= index && MajorityHeld(n, me, better)
    decreases index
    ensures CommitFrom(n, me, index).Lives? && better <= CommitFrom(n, me, index).value
  {
    assert NotAfter(n.log, better - n.lastIncluded, index - n.lastIncluded) || better == index;
    assert index < n.LastIndex() ==> NotAfter(n.log, index - n.lastIncluded, |n.log| - 1);
    if Holders(n.matchIndex, me, index) <= |n.matchIndex| / 2 {
      CommitFromIsLargest(n, me, index - 1, better);
    }
  }

  /** A leader's commit index moves to the largest index of its term that a majority holds, if
      that is beyond it, and stays otherwise. */
  lemma CommitIsExact(states: seq<Cluster>, steps: seq<Step>, i: nat, s: nat)
    requires SoundRun(states, steps) && i < |states| && s < |states[i].peers|
    requires states[i].peers[s].node.role == Leader && |states[i].peers[s].node.log| > 0
    ensures var n := states[i].peers[s].node; var o := AdvanceCommit(n, s);
      && o.Lives?
      && (o.value.commitIndex == n.commitIndex || MajorityHeld(n, s, o.value.commitIndex))
      && n.commitIndex <= o.value.commitIndex
      && forall k: nat :: MajorityHeld(n, s, k) ==> k <= o.value.commitIndex || k <= n.commitIndex
  {
    var n := states[i].peers[s].node;
    PeerAt(states, steps, i, s);
    RunInv(states, steps, i);
    assert PeerOk(states[i].core, s, states[i].peers[s]);
    CompactedSorted(states[i].core, s, n);
    CommitFromFinds(n, s, n.LastIndex());
    forall k: nat | MajorityHeld(n, s, k) && k > n.commitIndex ensures k <= AdvanceCommit(n, s).value.commitIndex {
      CommitFromIsLargest(n, s, n.LastIndex(), k);
    }
  }

  lemma CompactedSorted(c: C.Core, s: nat, n: Node)
    requires C.Inv(c) && s < c.n && NodeOk(c, s, n)
    ensures |n.log| > 0 && Sorted(n.log) && LastTerm(n.log) <= n.term
  {
    var full := c.log[s];
    assert C.LogOk(c.reigns, full);
    CompactsLast(n.log, n.lastIncluded, full);
    P.LogSorted(c, full);
    forall i: nat, j: nat | i < j < |n.log| ensures NotAfter(n.log, i, j) {
      CompactsAt(n.log, n.lastIncluded, full, n.lastIncluded + i);
      CompactsAt(n.log, n.lastIncluded, full, n.lastIncluded + j);
      assert NotAfter(full, n.lastIncluded + i, n.lastIncluded + j);
    }
  }

  /** A follower that takes a request's entries never counts as committed what the request has not
      just shown to be the leader's: the leader sent its whole log from the probed index on. */
  lemma FollowerCommitsVerified(states: seq<Cluster>, steps: seq<Step>, i: nat, f: nat, m: Message)
    requires SoundRun(states, steps) && i < |states| && Possible(states[i], HandleAppend(f, m))
    requires OnAppendEntries(states[i].peers[f].node, m.append).1.success
    ensures var n := states[i].peers[f].node; var a := m.append; var n' := OnAppendEntries(n, a).0;
      && n'.commitIndex == Max(n.commitIndex, a.leaderCommit)
      && (n'.commitIndex > n.commitIndex ==> n'.commitIndex <= a.prevLogIndex + |a.entries| <= n'.LastIndex())
  {
    ShownByRequest(states, steps, i, m);
    TakeVerified(Heard(states[i].peers[f].node, m.append.term), m.append);
  }

  lemma ShownByRequest(states: seq<Cluster>, steps: seq<Step>, i: nat, m: Message)
    requires SoundRun(states, steps) && i < |states| && m in states[i].net && m.AppendRequest?
    ensures m.append.leaderCommit <= m.append.prevLogIndex + |m.append.entries|
  {
    SoundRunInv(states, steps, i);
    assert CommitMessage(states[i].core, m);
  }

  lemma TakeVerified(n: Node, a: AppendArgs)
    requires |n.log| > 0 && n.InLog(a.prevLogIndex) && a.leaderCommit <= a.prevLogIndex + |a.entries|
    ensures |TakeEntries(n, a).log| > 0 && a.prevLogIndex + |a.entries| <= TakeEntries(n, a).LastIndex()
    ensures TakeEntries(n, a).commitIndex == Max(n.commitIndex, a.leaderCommit)
  {
    MatchLengthSpec(n.log, a.prevLogIndex + 1 - n.lastIncluded, a.entries);
  }
}
