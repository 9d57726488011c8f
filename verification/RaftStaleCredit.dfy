/**
 * Why a server must not count replies once it is out of office. In this run of five servers a leader
 * passes on only entries of older terms, one answer is late, and another leader overwrites them. The
 * late answer then makes the old leader, now a follower, count an entry of the new leader as
 * committed that only the two of them have; a third leader lacks it.
 */
module RaftStaleCredit {
  import opened RaftLog
  import opened RaftNode
  import opened RaftCluster
  import opened RaftStaleReply

  // ----- more moves -----

  /** A server with a more recent log refuses its vote, but moves to the candidate's term. */
  lemma Denies(k: Cluster, v: nat, term: nat, log: Log, role: Role, a: VoteArgs) returns (k': Cluster)
    requires Reachable(k) && Looks(k, v, term, log, role) && VoteRequest(v, a) in k.net && term < a.term
    requires a.lastLogTerm < LastTerm(log) || (a.lastLogTerm == LastTerm(log) && a.lastLogIndex + 1 < |log|)
    ensures Reachable(k') && Only(k, k', v) && Looks(k', v, a.term, log, Follower)
  {
    Reaches(k, HandleVote(v, VoteRequest(v, a)));
    k' := Next(k, HandleVote(v, VoteRequest(v, a)));
  }

  /** The follower's log is too short, or has only entries of another term since the first. */
  ghost predicate Differs(log: Log, prev: nat, prevTerm: nat) {
    && |log| > 0
    && if prev < |log| then prev == 1 && log[1].term != prevTerm else |log| == 1
  }

  function Hint(log: Log, prev: nat): int {
    if prev < |log| then log[prev].term else NO_TERM
  }

  lemma RefusesNode(n: Node, a: AppendArgs)
    requires n.Valid(5) && n.lastIncluded == n.commitIndex == 0 && n.term <= a.term
    requires n.role == Follower || (n.role == Leader && n.term < a.term)
    requires Differs(n.log, a.prevLogIndex, a.prevLogTerm)
    ensures var (n', r) := OnAppendEntries(n, a);
      && n'.Valid(5) && n'.term == a.term && n'.log == n.log && n'.role == Follower
      && n'.lastIncluded == 0 && n'.commitIndex == 0 && n'.matchIndex == n.matchIndex
      && r == AppendReply(a.term, false, Hint(n.log, a.prevLogIndex), 1)
  {
    if a.prevLogIndex < |n.log| { assert ConflictStart(Heard(n, a.term), 1, n.log[1].term) == 1; }
  }

  lemma Refuses(k: Cluster, f: nat, tf: nat, lf: Log, rf: Role, a: AppendArgs) returns (k': Cluster)
    requires Reachable(k) && Looks(k, f, tf, lf, rf) && AppendRequest(f, a) in k.net && tf <= a.term
    requires rf == Follower || (rf == Leader && tf < a.term)
    requires Differs(lf, a.prevLogIndex, a.prevLogTerm)
    ensures Reachable(k') && Only(k, k', f) && Looks(k', f, a.term, lf, Follower)
    ensures k'.peers[f].node.matchIndex == k.peers[f].node.matchIndex
    ensures AppendAnswer(a.leader, f, a, AppendReply(a.term, false, Hint(lf, a.prevLogIndex), 1)) in k'.net
  {
    RefusesNode(k.peers[f].node, a);
    Reaches(k, HandleAppend(f, AppendRequest(f, a)));
    k' := Next(k, HandleAppend(f, AppendRequest(f, a)));
  }

  lemma Sends(k: Cluster, s: nat, f: nat, term: nat, log: Log) returns (k': Cluster, a: AppendArgs)
    requires Reachable(k) && s != f && f < 5 && Looks(k, s, term, log, Leader)
    requires 1 <= k.peers[s].node.nextIndex[f] <= |log|
    ensures Reachable(k') && k'.peers == k.peers && k.net <= k'.net && AppendRequest(f, a) in k'.net
    ensures var next := k.peers[s].node.nextIndex[f];
      a == AppendArgs(term, s, next - 1, log[next - 1].term, log[next..], 0)
  {
    var next := k.peers[s].node.nextIndex[f];
    a := AppendArgs(term, s, next - 1, log[next - 1].term, log[next..], 0);
    Reaches(k, Replicate(s, f));
    k' := Next(k, Replicate(s, f));
  }

  /** The leader goes back to the beginning of its log. */
  lemma BacksNode(n: Node, s: nat, f: nat, a: AppendArgs, lf: Log)
    requires n.Valid(5) && f < 5 && n.lastIncluded == 0 && n.matchIndex[f] == 0 && 0 < a.prevLogIndex < |n.log|
    requires n.log[a.prevLogIndex].term == a.prevLogTerm && Differs(lf, a.prevLogIndex, a.prevLogTerm)
    requires n.term == a.term
    ensures OnAppendReply(n, s, f, a, AppendReply(a.term, false, Hint(lf, a.prevLogIndex), 1)) ==
              Lives(n.(nextIndex := n.nextIndex[f := 1]))
  {
    if a.prevLogIndex < |lf| {
      assert Backtrack(n, 0, 1, lf[1].term) == Lives(1);
      assert Backtrack(n, 1, 1, lf[1].term) == Lives(1);
    }
  }

  /** The leader probes, is refused, and goes back. */
  lemma Backs(k: Cluster, s: nat, f: nat, term: nat, log: Log, tf: nat, lf: Log, rf: Role) returns (k': Cluster)
    requires Reachable(k) && s != f && Looks(k, s, term, log, Leader) && Looks(k, f, tf, lf, rf) && tf <= term
    requires rf == Follower || (rf == Leader && tf < term)
    requires k.peers[s].node.matchIndex[f] == 0
    requires var next := k.peers[s].node.nextIndex[f]; 2 <= next <= |log| && Differs(lf, next - 1, log[next - 1].term)
    ensures Reachable(k') && |k.peers| == |k'.peers| == 5 && k.net <= k'.net
    ensures forall j :: 0 <= j < 5 && j != s && j != f ==> k'.peers[j] == k.peers[j]
    ensures k'.peers[s].node == k.peers[s].node.(nextIndex := k.peers[s].node.nextIndex[f := 1])
    ensures Looks(k', s, term, log, Leader) && Looks(k', f, term, lf, Follower)
    ensures k'.peers[f].node.matchIndex == k.peers[f].node.matchIndex
  {
    var k1, a := Sends(k, s, f, term, log);
    var k2 := Refuses(k1, f, tf, lf, rf, a);
    var n := k2.peers[s].node;
    BacksNode(n, s, f, a, lf);
    k' := Hears(k2, s, f, a, AppendReply(a.term, false, Hint(lf, a.prevLogIndex), 1), n.(nextIndex := n.nextIndex[f := 1]));
  }

  // ----- the run -----

  const Y := Entry(4, Operation(2, 2, "y"))

  const LATE := AppendArgs(3, 0, 0, 0, [A, B], 0)

  /** Server 0 has led term 1, with A and B, which server 1 has too. Server 2 leads term 2, with X. */
  lemma Rivals() returns (k: Cluster)
    ensures Reachable(k) && Looks(k, 0, 2, [ROOT, A, B], Follower) && Looks(k, 1, 1, [ROOT, A, B], Follower)
    ensures Looks(k, 2, 2, [ROOT, X], Leader) && Looks(k, 3, 2, [ROOT], Follower) && Looks(k, 4, 2, [ROOT], Follower)
  {
    var k0 := FirstTerm();
    var k1 := Elects(k0, 2, 3, 4, 1, [ROOT], Follower, 0, [ROOT], 0, [ROOT]);
    var k2 := Proposes(k1, 2, 2, [ROOT], X.command);
    assert [ROOT] + [X] == [ROOT, X];
    k := Denies(k2, 0, 1, [ROOT, A, B], Leader, VoteArgs(2, 2, 0, 0));
  }

  /** Server 0 leads term 3, in which it proposes nothing. */
  lemma OldEntries() returns (k: Cluster)
    ensures Reachable(k) && Looks(k, 0, 3, [ROOT, A, B], Leader) && Looks(k, 1, 1, [ROOT, A, B], Follower)
    ensures Looks(k, 2, 3, [ROOT, X], Follower) && Looks(k, 3, 3, [ROOT], Follower) && Looks(k, 4, 3, [ROOT], Follower)
    ensures k.peers[0].node.nextIndex == seq(5, j => 3) && k.peers[0].node.matchIndex == seq(5, j => 0)
  {
    var k0 := Rivals();
    var k1 := Elects(k0, 0, 3, 4, 2, [ROOT, A, B], Follower, 2, [ROOT], 2, [ROOT]);
    k := Denies(k1, 2, 2, [ROOT, X], Leader, VoteArgs(3, 0, 2, 1));
  }

  /** Server 1 has A and B already, which server 0 hears. */
  lemma FirstAnswer() returns (k: Cluster)
    ensures Reachable(k) && Looks(k, 0, 3, [ROOT, A, B], Leader) && Looks(k, 1, 3, [ROOT, A, B], Follower)
    ensures Looks(k, 2, 3, [ROOT, X], Follower) && Looks(k, 3, 3, [ROOT], Follower) && Looks(k, 4, 3, [ROOT], Follower)
    ensures k.peers[0].node.nextIndex == [3, 3, 3, 3, 3] && k.peers[0].node.matchIndex == [0, 2, 0, 0, 0]
  {
    var k0 := OldEntries();
    var k1, a := Replicates(k0, 0, 1, 3, [ROOT, A, B], 1, [ROOT, A, B], Follower);
    assert [ROOT, A, B][3..] == [] && [ROOT, A, B][..3] + [] == [ROOT, A, B];
    var n := k1.peers[0].node;
    OldCount(n, a);
    k := Hears(k1, 0, 1, a, AppendReply(3, true, 0, 0), n.(matchIndex := [0, 2, 0, 0, 0], nextIndex := [3, 3, 3, 3, 3]));
  }

  lemma OldCount(n: Node, a: AppendArgs)
    requires n.Valid(5) && n.log == [ROOT, A, B] && n.term == 3 && n.lastIncluded == n.commitIndex == 0
    requires n.matchIndex == seq(5, j => 0) && n.nextIndex == seq(5, j => 3) && a.prevLogIndex == 2 && a.entries == []
    ensures OnAppendReply(n, 0, 1, a, AppendReply(3, true, 0, 0)) ==
              Lives(n.(matchIndex := [0, 2, 0, 0, 0], nextIndex := [3, 3, 3, 3, 3]))
  {
    assert n.matchIndex[1 := 2] == [0, 2, 0, 0, 0] && n.nextIndex[1 := 3] == [3, 3, 3, 3, 3];
  }

  /** Server 3 gets A and B; its answer is late. */
  lemma LateAnswer() returns (k: Cluster)
    ensures Reachable(k) && AppendAnswer(0, 3, LATE, AppendReply(3, true, 0, 0)) in k.net
    ensures Looks(k, 0, 3, [ROOT, A, B], Leader) && k.peers[0].node.matchIndex == [0, 2, 0, 0, 0]
    ensures Looks(k, 1, 3, [ROOT, A, B], Follower) && Looks(k, 2, 3, [ROOT, X], Follower)
    ensures Looks(k, 3, 3, [ROOT, A, B], Follower) && Looks(k, 4, 3, [ROOT], Follower)
  {
    var k0 := FirstAnswer();
    var k1 := Backs(k0, 0, 3, 3, [ROOT, A, B], 3, [ROOT], Follower);
    var a;
    k, a := Replicates(k1, 0, 3, 3, [ROOT, A, B], 3, [ROOT], Follower);
    assert [ROOT, A, B][1..] == [A, B] && [ROOT][..1] + [A, B] == [ROOT, A, B];
  }

  /** Server 2 leads term 4, with Y. */
  lemma RivalReturns() returns (k: Cluster)
    ensures Reachable(k) && AppendAnswer(0, 3, LATE, AppendReply(3, true, 0, 0)) in k.net
    ensures Looks(k, 0, 3, [ROOT, A, B], Leader) && k.peers[0].node.matchIndex == [0, 2, 0, 0, 0]
    ensures Looks(k, 1, 4, [ROOT, A, B], Follower) && Looks(k, 3, 3, [ROOT, A, B], Follower) && Looks(k, 4, 4, [ROOT], Follower)
    ensures Looks(k, 2, 4, [ROOT, X, Y], Leader)
    ensures k.peers[2].node.nextIndex == seq(5, j => 2) && k.peers[2].node.matchIndex == seq(5, j => 0)
  {
    var k0 := LateAnswer();
    var k1 := Elects(k0, 2, 1, 4, 3, [ROOT, X], Follower, 3, [ROOT, A, B], 3, [ROOT]);
    k := Proposes(k1, 2, 4, [ROOT, X], Y.command);
    assert [ROOT, X] + [Y] == [ROOT, X, Y];
  }

  /** It overwrites A and B in server 0, which remembers the answer of server 1. */
  lemma Overwrites() returns (k: Cluster)
    ensures Reachable(k) && AppendAnswer(0, 3, LATE, AppendReply(3, true, 0, 0)) in k.net
    ensures Looks(k, 0, 4, [ROOT, X, Y], Follower) && k.peers[0].node.matchIndex == [0, 2, 0, 0, 0]
    ensures Looks(k, 1, 4, [ROOT, A, B], Follower) && Looks(k, 3, 3, [ROOT, A, B], Follower) && Looks(k, 4, 4, [ROOT], Follower)
  {
    var k0 := RivalReturns();
    var k1 := Backs(k0, 2, 0, 4, [ROOT, X, Y], 3, [ROOT, A, B], Leader);
    var a;
    k, a := Replicates(k1, 2, 0, 4, [ROOT, X, Y], 4, [ROOT, A, B], Follower);
    assert [ROOT, A, B][..1] + [ROOT, X, Y][1..] == [ROOT, X, Y];
  }

  lemma FalseMajority(n: Node)
    requires n.Valid(5) && n.log == [ROOT, X, Y] && n.term == 4 && n.lastIncluded == n.commitIndex == 0
    requires n.matchIndex == [0, 2, 0, 0, 0]
    ensures MajorityHeld(n.(matchIndex := n.matchIndex[3 := 2]), 0, 2)
    ensures OnAppendReply(n, 0, 3, LATE, AppendReply(3, true, 0, 0)) ==
              Lives(n.(matchIndex := [0, 2, 0, 2, 0], nextIndex := n.nextIndex[3 := 3], commitIndex := 2))
  {
    assert n.matchIndex[3 := 2] == [0, 2, 0, 2, 0];
    FiveHolders(2, 0, 2, 0, 2);
  }

  /** The late answer: a reply that the guard on replies bars, and that commits Y at server 0. */
  lemma Miscredits() returns (before: Cluster, k: Cluster)
    ensures var step := HandleAppendAnswer(0, AppendAnswer(0, 3, LATE, AppendReply(3, true, 0, 0)));
      Reachable(before) && Looks(before, 0, 4, [ROOT, X, Y], Follower) && Possible(before, step) && !SoundReply(before, step)
    ensures Reachable(k) && |k.peers| == 5
    ensures var n := k.peers[0].node; n.log == [ROOT, X, Y] && n.term == 4 && n.lastIncluded == 0 && n.commitIndex == 2
    ensures Looks(k, 1, 4, [ROOT, A, B], Follower) && Looks(k, 3, 3, [ROOT, A, B], Follower) && Looks(k, 4, 4, [ROOT], Follower)
  {
    before := Overwrites();
    var n := before.peers[0].node;
    FalseMajority(n);
    k := Hears(before, 0, 3, LATE, AppendReply(3, true, 0, 0),
               n.(matchIndex := [0, 2, 0, 2, 0], nextIndex := n.nextIndex[3 := 3], commitIndex := 2));
  }

  /** The leader of term 5 has B where server 0, out of office, counts Y as committed in term 4. */
  lemma LateCreditLosesEntry() returns (k: Cluster)
    ensures Reachable(k) && |k.peers| == 5
    ensures var n := k.peers[0].node; var l := k.peers[1].node;
      && l.role == Leader && n.term < l.term
      && n.lastIncluded == l.lastIncluded == 0 && n.commitIndex == 2
      && |n.log| == |l.log| == 3 && n.log[2] == Y != B == l.log[2]
  {
    var _, k0 := Miscredits();
    k := Elects(k0, 1, 3, 4, 4, [ROOT, A, B], Follower, 3, [ROOT, A, B], 4, [ROOT]);
  }
}
