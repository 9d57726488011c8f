/** That the guard on replies is exact: it bars the credits that can be miscounted, and no others. */
module RaftCredit {
  import opened RaftLog
  import opened RaftNode
  import opened RaftCompaction
  import opened RaftCluster
  import opened RaftClusterProof
  import opened RaftCommit
  import opened RaftSafety
  import opened RaftBackup
  import C = RaftCore
  import P = RaftCoreProof

  /**
   * Every count towards a commit is truthful: a peer that matchIndex credits with an index beyond
   * the commit index, where the leader has an entry of its own term or none yet, has acknowledged
   * it in this term. (What a leader adds to its log is of its own term.)
   */
  ghost predicate CountsTruly(c: C.Core, s: nat, n: Node)
    requires C.Shape(c) && s < c.n && n.Valid(c.n)
  {
    forall i: nat, j: nat :: i < c.n && i != s && n.commitIndex < j <= n.matchIndex[i] && Countable(c.log[s], n.term, j) ==>
      j <= c.Acked(i, n.term)
  }

  ghost predicate Countable(log: Log, term: nat, j: nat) {
    j < |log| ==> log[j].term == term
  }

  lemma TruthIsCredit(c: C.Core, s: nat, n: Node)
    requires C.Inv(c) && s < c.n && NodeOk(c, s, n)
    ensures CountsTruly(c, s, n) <==> LeaderViewOk(c, s, n)
  {
    var log := c.log[s];
    P.LogSorted(c, log);
    if LeaderViewOk(c, s, n) {
      forall i: nat, j: nat | i < c.n && i != s && n.commitIndex < j <= n.matchIndex[i] && Countable(log, n.term, j)
        ensures j <= c.Acked(i, n.term)
      {
        if j < |log| { OwnCreditAcked(c, s, n, i, n.matchIndex[i], j); }
      }
    }
    if CountsTruly(c, s, n) {
      forall i: nat | i < c.n && i != s ensures CreditOk(c, s, n, i, n.matchIndex[i]) {
        var m := n.matchIndex[i];
        assert m < |log| - 1 ==> NotAfter(log, m, |log| - 1);
        assert n.commitIndex < m <= n.matchIndex[i] && Countable(log, n.term, m) ==> m <= c.Acked(i, n.term);
      }
    }
  }

  /**
   * A leader whose counts are truthful handles a success that raises matchIndex. They stay truthful
   * if and only if the guard holds, or the peer happens to have acknowledged as much in this term.
   */
  lemma CreditIsExact(states: seq<Cluster>, steps: seq<Step>, i: nat, s: nat, m: Message)
    requires SoundRun(states, steps) && i < |states| && Possible(states[i], HandleAppendAnswer(s, m))
    requires states[i].peers[s].node.role == Leader && m.appendReply.success
    requires states[i].peers[s].node.matchIndex[m.from] < m.append.prevLogIndex + |m.append.entries|
    ensures var n := states[i].peers[s].node; var c := states[i].core;
      var index := m.append.prevLogIndex + |m.append.entries|;
      var n' := n.(matchIndex := n.matchIndex[m.from := index]);
      && C.Shape(c) && s < c.n && n.Valid(c.n) && n'.Valid(c.n)
      && CountsTruly(c, s, n)
      && (CountsTruly(c, s, n') <==> SafeCredit(n, s, m.from, m.append.term, index) || index <= c.Acked(m.from, n.term))
  {
    SoundRunInv(states, steps, i);
    assert MessageOk(states[i].core, m) && PeerOk(states[i].core, s, states[i].peers[s]);
    assert CommitPeer(states[i].core, s, states[i].peers[s]);
    OpenPeer(states[i].core, s, states[i].peers[s]);
    CreditExactly(states[i].core, s, states[i].peers[s].node, m);
  }

  lemma CreditExactly(c: C.Core, s: nat, n: Node, m: Message)
    requires C.Inv(c) && s < c.n && NodeOk(c, s, n) && n.role == Leader && LeaderViewOk(c, s, n)
    requires n.lastIncluded <= n.commitIndex
    requires m.AppendAnswer? && m.to == s && MessageOk(c, m) && m.appendReply.success
    ensures var index := m.append.prevLogIndex + |m.append.entries|;
      var n' := n.(matchIndex := n.matchIndex[m.from := index]);
      && CountsTruly(c, s, n)
      && (CountsTruly(c, s, n') <==> SafeCredit(n, s, m.from, m.append.term, index) || index <= c.Acked(m.from, n.term))
  {
    var index := m.append.prevLogIndex + |m.append.entries|;
    var n' := n.(matchIndex := n.matchIndex[m.from := index]);
    TruthIsCredit(c, s, n);
    TruthIsCredit(c, s, n');
    if n.lastIncluded <= index < |c.log[s]| { CompactsAt(n.log, n.lastIncluded, c.log[s], index); }
    assert CreditOk(c, s, n, m.from, index) == CreditOk(c, s, n', m.from, n'.matchIndex[m.from]);
    forall i: nat | i < c.n && i != s && i != m.from ensures CreditOk(c, s, n', i, n'.matchIndex[i]) {
      assert CreditOk(c, s, n, i, n.matchIndex[i]);
    }
  }

  /** Stale snapshot replies are harmless to a leader, whatever the term of the request. */
  lemma SnapshotRepliesAreSafe(states: seq<Cluster>, steps: seq<Step>, i: nat, s: nat, m: Message)
    requires SoundRun(states, steps) && i < |states| && Possible(states[i], HandleInstallAnswer(s, m))
    requires states[i].peers[s].node.role == Leader && m.term <= states[i].peers[s].node.term
    ensures SafeCredit(states[i].peers[s].node, s, m.from, m.install.term, m.install.lastIncluded)
  {
    SoundRunInv(states, steps, i);
    var c, p := states[i].core, states[i].peers[s];
    assert MessageOk(c, m) && CommitMessage(c, m) && PeerOk(c, s, p) && CommitPeer(c, s, p);
    SnapshotReplyIsSafe(c, s, p, m);
  }

  lemma SnapshotReplyIsSafe(c: C.Core, s: nat, p: Peer, m: Message)
    requires C.Inv(c) && s < c.n && PeerOk(c, s, p) && CommitPeer(c, s, p) && m.InstallAnswer? && m.from < c.n
    requires CommitMessage(c, m) && p.node.role == Leader && m.term <= p.node.term
    ensures SafeCredit(p.node, s, m.from, m.install.term, m.install.lastIncluded)
  {
    var a := m.install;
    OpenPeer(c, s, p);
    LeaderHasReign(c, s, p.node);
    if a.term < p.node.term {
      ChosenIsOlder(c, a.term, p.node.term, a.lastIncluded);
      OlderIsSafe(p.node, c.log[s], s, m.from, a.term, a.lastIncluded);
    }
  }

  lemma OlderIsSafe(n: Node, full: Log, s: nat, from: nat, asked: nat, index: nat)
    requires Compacts(n.log, n.lastIncluded, full) && n.lastIncluded <= n.commitIndex && n.role == Leader
    requires from < |n.matchIndex| && index < |full| && full[index].term < n.term
    ensures SafeCredit(n, s, from, asked, index)
  {
    if index > n.commitIndex { CompactsAt(n.log, n.lastIncluded, full, index); }
  }

  // ----- out of office -----

  /**
   * A server that handles a reply, in or out of office, moves its commit index if and only if the
   * credit makes up a majority for an index of its own term beyond it. So out of office the guard
   * bars exactly the replies that commit something.
   */
  lemma OutOfOfficeIsExact(states: seq<Cluster>, steps: seq<Step>, i: nat, s: nat, from: nat, index: nat)
    requires SoundRun(states, steps) && i < |states| && s < |states[i].peers| && from < |states[i].peers|
    requires from < |states[i].peers[s].node.matchIndex| && |states[i].peers[s].node.log| > 0
    ensures var n := states[i].peers[s].node; var n' := n.(matchIndex := n.matchIndex[from := index]);
      AdvanceCommit(n', s) == Lives(n') <==> MovesNothing(n, s, from, index)
  {
    var n := states[i].peers[s].node;
    var n' := n.(matchIndex := n.matchIndex[from := index]);
    PeerAt(states, steps, i, s);
    RunInv(states, steps, i);
    assert PeerOk(states[i].core, s, states[i].peers[s]);
    CompactedSorted(states[i].core, s, n);
    if MovesNothing(n, s, from, index) {
      NothingCommits(n', s);
    } else {
      var j: nat :| n.commitIndex < j && MajorityHeld(n', s, j);
      CommitFromIsLargest(n', s, n'.LastIndex(), j);
      CommitFromFinds(n', s, n'.LastIndex());
    }
  }
}
