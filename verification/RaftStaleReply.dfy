/**
 * Why servers must not act on replies to offices they no longer hold. The handling of AppendEntries
 * replies compares the reply's term with the server's, but not the request's term. One run of
 * five servers ends with a later leader that lacks an entry already counted as committed, another
 * with a server that dies.
 */
module RaftStaleReply {
  import opened RaftLog
  import opened RaftNode
  import opened RaftCluster
  import C = RaftCore

  ghost predicate Reachable(k: Cluster) {
    exists states, steps :: Run(states, steps) && states[|states| - 1] == k
  }

  lemma Reaches(k: Cluster, step: Step)
    requires Reachable(k) && Possible(k, step)
    ensures Reachable(Next(k, step))
  {
    var states, steps :| Run(states, steps) && states[|states| - 1] == k;
    var states', steps' := states + [Next(k, step)], steps + [step];
    assert states'[|states'| - 1] == Next(k, step);
    assert Run(states', steps') by {
      forall i: nat | i < |steps'| ensures Follows(states', steps', i) {
        if i < |steps| { assert Follows(states, steps, i); }
      }
    }
  }

  // ----- moves of the run -----

  /** A server that has compacted and committed nothing. */
  ghost predicate Looks(k: Cluster, s: nat, term: nat, log: Log, role: Role) {
    && |k.peers| == 5 && s < 5
    && var n := k.peers[s].node;
       n.Valid(5) && n.term == term && n.log == log && |log| > 0 && n.role == role && n.lastIncluded == 0 && n.commitIndex == 0
  }

  /** k' is k with server s changed, and messages only added. */
  ghost predicate Only(k: Cluster, k': Cluster, s: nat) {
    && |k.peers| == |k'.peers| == 5 && k.net <= k'.net
    && forall j :: 0 <= j < 5 && j != s ==> k'.peers[j] == k.peers[j]
  }

  /** The candidate has asked everybody else for a vote. */
  ghost predicate Asks(k: Cluster, a: VoteArgs) {
    forall j: nat :: j < 5 && j != a.candidate ==> VoteRequest(j, a) in k.net
  }

  lemma Stands(k: Cluster, s: nat, term: nat, log: Log, role: Role) returns (k': Cluster, a: VoteArgs)
    requires Reachable(k) && Looks(k, s, term, log, role)
    ensures Reachable(k') && Only(k, k', s) && Looks(k', s, term + 1, log, Candidate)
    ensures k'.peers[s].election == Election(1, false) && k'.peers[s].counted == {}
    ensures a == VoteArgs(term + 1, s, |log| - 1, LastTerm(log))
    ensures Asks(k', a)
  {
    Reaches(k, Timeout(s));
    k' := Next(k, Timeout(s));
    a := StartElection(k.peers[s].node, s).1;
  }

  lemma Grants(k: Cluster, v: nat, term: nat, log: Log, a: VoteArgs) returns (k': Cluster)
    requires Reachable(k) && Looks(k, v, term, log, Follower) && VoteRequest(v, a) in k.net && term < a.term
    requires a.lastLogTerm > LastTerm(log) || (a.lastLogTerm == LastTerm(log) && a.lastLogIndex + 1 >= |log|)
    ensures Reachable(k') && Only(k, k', v) && Looks(k', v, a.term, log, Follower)
    ensures VoteAnswer(a.candidate, v, a.term, VoteReply(a.term, true)) in k'.net
  {
    Reaches(k, HandleVote(v, VoteRequest(v, a)));
    k' := Next(k, HandleVote(v, VoteRequest(v, a)));
  }

  lemma Counts(k: Cluster, s: nat, v: nat, term: nat, log: Log) returns (k': Cluster)
    requires Reachable(k) && Looks(k, s, term, log, Candidate) && v !in k.peers[s].counted
    requires k.peers[s].election == Election(1, false) || k.peers[s].election == Election(2, false)
    requires VoteAnswer(s, v, term, VoteReply(term, true)) in k.net
    ensures Reachable(k') && Only(k, k', s)
    ensures k'.peers[s].counted == k.peers[s].counted + {v}
    ensures if k.peers[s].election.votes == 1
            then Looks(k', s, term, log, Candidate) && k'.peers[s].election == Election(2, false)
            else
              && Looks(k', s, term, log, Leader)
              && k'.peers[s].node.nextIndex == seq(5, j => |log|) && k'.peers[s].node.matchIndex == seq(5, j => 0)
  {
    var m := VoteAnswer(s, v, term, VoteReply(term, true));
    Reaches(k, HandleVoteAnswer(s, m));
    k' := Next(k, HandleVoteAnswer(s, m));
  }

  /** Server s wins an election with the votes of v and w. */
  lemma Elects(k: Cluster, s: nat, v: nat, w: nat, term: nat, log: Log, role: Role, tv: nat, lv: Log, tw: nat, lw: Log)
      returns (k': Cluster)
    requires Reachable(k) && s != v && s != w && v != w
    requires Looks(k, s, term, log, role) && Looks(k, v, tv, lv, Follower) && Looks(k, w, tw, lw, Follower)
    requires tv <= term && tw <= term
    requires LastTerm(log) > LastTerm(lv) || (LastTerm(log) == LastTerm(lv) && |log| >= |lv|)
    requires LastTerm(log) > LastTerm(lw) || (LastTerm(log) == LastTerm(lw) && |log| >= |lw|)
    ensures Reachable(k') && |k.peers| == |k'.peers| == 5 && k.net <= k'.net
    ensures forall j :: 0 <= j < 5 && j != s && j != v && j != w ==> k'.peers[j] == k.peers[j]
    ensures Looks(k', s, term + 1, log, Leader) && Looks(k', v, term + 1, lv, Follower) && Looks(k', w, term + 1, lw, Follower)
    ensures k'.peers[s].node.nextIndex == seq(5, j => |log|) && k'.peers[s].node.matchIndex == seq(5, j => 0)
    ensures Asks(k', VoteArgs(term + 1, s, |log| - 1, LastTerm(log)))
  {
    var k1, a := Stands(k, s, term, log, role);
    var k2 := Grants(k1, v, tv, lv, a);
    var k3 := Grants(k2, w, tw, lw, a);
    var k4 := Counts(k3, s, v, term + 1, log);
    k' := Counts(k4, s, w, term + 1, log);
  }

  lemma Proposes(k: Cluster, s: nat, term: nat, log: Log, command: Command) returns (k': Cluster)
    requires Reachable(k) && Looks(k, s, term, log, Leader)
    ensures Reachable(k') && Only(k, k', s) && Looks(k', s, term, log + [Entry(term, command)], Leader)
    ensures k'.peers[s].node.nextIndex == k.peers[s].node.nextIndex && k'.peers[s].node.matchIndex == k.peers[s].node.matchIndex
  {
    Reaches(k, Client(s, command));
    k' := Next(k, Client(s, command));
  }

  /** The leader sends, and the follower takes, everything from the follower's next index on. */
  lemma Replicates(k: Cluster, s: nat, f: nat, term: nat, log: Log, tf: nat, lf: Log, rf: Role)
      returns (k': Cluster, a: AppendArgs)
    requires Reachable(k) && s != f && Looks(k, s, term, log, Leader) && Looks(k, f, tf, lf, rf) && tf <= term
    requires rf == Follower || (rf == Leader && tf < term)
    requires var next := k.peers[s].node.nextIndex[f];
      && 1 <= next <= |log| && next <= |lf| && lf[next - 1].term == log[next - 1].term
      && (next == |lf| || (next < |log| && lf[next].term != log[next].term))
    ensures Reachable(k') && Only(k, k', f)
    ensures var next := k.peers[s].node.nextIndex[f];
      && Looks(k', f, term, lf[..next] + log[next..], Follower)
      && k'.peers[f].node.matchIndex == k.peers[f].node.matchIndex
      && a == AppendArgs(term, s, next - 1, log[next - 1].term, log[next..], 0)
    ensures AppendAnswer(s, f, a, AppendReply(term, true, 0, 0)) in k'.net
  {
    var next := k.peers[s].node.nextIndex[f];
    a := AppendArgs(term, s, next - 1, log[next - 1].term, log[next..], 0);
    Reaches(k, Replicate(s, f));
    var k1 := Next(k, Replicate(s, f));
    assert k1.peers == k.peers;
    k' := Takes(k1, f, tf, lf, rf, a);
  }

  lemma Takes(k: Cluster, f: nat, tf: nat, lf: Log, rf: Role, a: AppendArgs) returns (k': Cluster)
    requires Reachable(k) && Looks(k, f, tf, lf, rf) && AppendRequest(f, a) in k.net && tf <= a.term
    requires rf == Follower || (rf == Leader && tf < a.term)
    requires a.prevLogIndex < |lf| && lf[a.prevLogIndex].term == a.prevLogTerm && a.leaderCommit == 0
    requires a.prevLogIndex + 1 == |lf| || (a.entries != [] && lf[a.prevLogIndex + 1].term != a.entries[0].term)
    ensures Reachable(k') && Only(k, k', f)
    ensures Looks(k', f, a.term, lf[..a.prevLogIndex + 1] + a.entries, Follower)
    ensures k'.peers[f].node.matchIndex == k.peers[f].node.matchIndex
    ensures AppendAnswer(a.leader, f, a, AppendReply(a.term, true, 0, 0)) in k'.net
  {
    TakesNode(k.peers[f].node, a);
    Reaches(k, HandleAppend(f, AppendRequest(f, a)));
    k' := Next(k, HandleAppend(f, AppendRequest(f, a)));
  }

  lemma TakesNode(n: Node, a: AppendArgs)
    requires n.Valid(5) && n.lastIncluded == n.commitIndex == a.leaderCommit == 0 && n.term <= a.term
    requires n.role == Follower || (n.role == Leader && n.term < a.term)
    requires a.prevLogIndex < |n.log| && n.log[a.prevLogIndex].term == a.prevLogTerm
    requires a.prevLogIndex + 1 == |n.log| || (a.entries != [] && n.log[a.prevLogIndex + 1].term != a.entries[0].term)
    ensures var (n', r) := OnAppendEntries(n, a);
      && n'.Valid(5) && n'.term == a.term && n'.log == n.log[..a.prevLogIndex + 1] + a.entries
      && n'.role == Follower && n'.lastIncluded == 0 && n'.commitIndex == 0 && n'.matchIndex == n.matchIndex
      && r == AppendReply(a.term, true, 0, 0)
  {
    TakesHeard(Heard(n, a.term), a);
  }

  lemma TakesHeard(n: Node, a: AppendArgs)
    requires n.Valid(5) && n.lastIncluded == n.commitIndex == a.leaderCommit == 0 && n.term == a.term && n.role == Follower
    requires a.prevLogIndex < |n.log| && n.log[a.prevLogIndex].term == a.prevLogTerm
    requires a.prevLogIndex + 1 == |n.log| || (a.entries != [] && n.log[a.prevLogIndex + 1].term != a.entries[0].term)
    ensures var (n', r) := Judged(n, a);
      && n'.Valid(5) && n'.term == a.term && n'.log == n.log[..a.prevLogIndex + 1] + a.entries
      && n'.role == Follower && n'.lastIncluded == 0 && n'.commitIndex == 0 && n'.matchIndex == n.matchIndex
      && r == AppendReply(a.term, true, 0, 0)
  {
    SplicesAll(n.log, a.prevLogIndex + 1, a.entries);
  }

  lemma SplicesAll(log: Log, at: nat, entries: Log)
    requires at <= |log| && (at == |log| || (entries != [] && log[at].term != entries[0].term))
    ensures MatchLength(log, at, entries) == 0 && Spliced(log, at, entries) == log[..at] + entries
  {
    assert MatchLength(log, at, entries) == 0;
    assert log[..at + 0] == log[..at];
  }

  // ----- the run -----

  const A := Entry(1, Operation(0, 1, "a"))
  const B := Entry(1, Operation(0, 2, "b"))
  const X := Entry(2, Operation(2, 1, "x"))
  const D := Entry(3, Operation(0, 3, "d"))

  const STALE := AppendArgs(1, 0, 0, 0, [A, B], 0)

  /** Server 0 leads term 1. */
  lemma FirstElection() returns (k: Cluster)
    ensures Reachable(k) && Looks(k, 0, 1, [ROOT], Leader) && k.peers[0].node.nextIndex == seq(5, j => 1)
    ensures Looks(k, 1, 1, [ROOT], Follower) && Looks(k, 2, 1, [ROOT], Follower)
    ensures Looks(k, 3, 0, [ROOT], Follower) && Looks(k, 4, 0, [ROOT], Follower)
  {
    var k0 := Starts();
    k := Elects(k0, 0, 1, 2, 0, [ROOT], Follower, 0, [ROOT], 0, [ROOT]);
    assert k.peers[3] == k0.peers[3] && k.peers[4] == k0.peers[4];
  }

  /** It has A and B. */
  lemma FirstLeader() returns (k: Cluster)
    ensures Reachable(k) && Looks(k, 0, 1, [ROOT, A, B], Leader) && k.peers[0].node.nextIndex == seq(5, j => 1)
    ensures Looks(k, 1, 1, [ROOT], Follower) && Looks(k, 2, 1, [ROOT], Follower)
    ensures Looks(k, 3, 0, [ROOT], Follower) && Looks(k, 4, 0, [ROOT], Follower)
  {
    var k1 := FirstElection();
    var k2 := Proposes(k1, 0, 1, [ROOT], A.command);
    assert [ROOT] + [A] == [ROOT, A];
    k := Proposes(k2, 0, 1, [ROOT, A], B.command);
    assert [ROOT, A] + [B] == [ROOT, A, B];
  }

  /** It gives them to server 1, whose answer is slow. */
  lemma FirstTerm() returns (k: Cluster)
    ensures Reachable(k) && AppendAnswer(0, 1, STALE, AppendReply(1, true, 0, 0)) in k.net
    ensures Looks(k, 0, 1, [ROOT, A, B], Leader) && Looks(k, 1, 1, [ROOT, A, B], Follower)
    ensures Looks(k, 2, 1, [ROOT], Follower) && Looks(k, 3, 0, [ROOT], Follower) && Looks(k, 4, 0, [ROOT], Follower)
  {
    var k0 := FirstLeader();
    var a;
    k, a := Replicates(k0, 0, 1, 1, [ROOT, A, B], 1, [ROOT], Follower);
    assert [ROOT, A, B][1..] == [A, B] && [ROOT][..1] + [A, B] == [ROOT, A, B];
  }

  lemma Starts() returns (k: Cluster)
    ensures Reachable(k) && Looks(k, 0, 0, [ROOT], Follower) && Looks(k, 1, 0, [ROOT], Follower)
    ensures Looks(k, 2, 0, [ROOT], Follower) && Looks(k, 3, 0, [ROOT], Follower) && Looks(k, 4, 0, [ROOT], Follower)
  {
    var p := Peer(Boot(5), Election(0, false), {}, Idle, [], 0);
    k := Cluster(seq(5, i => p), {}, {}, C.Core(5, seq(5, i => 0), seq(5, i => [ROOT]), map[], map[], map[]));
    assert Run([k], []);
    assert [k][|[k]| - 1] == k;
  }

  /** Server 2 leads term 2 without A and B, and overwrites them in server 0 with X. */
  lemma SecondTerm() returns (k: Cluster)
    ensures Reachable(k) && AppendAnswer(0, 1, STALE, AppendReply(1, true, 0, 0)) in k.net
    ensures Looks(k, 0, 2, [ROOT, X], Follower) && Looks(k, 1, 1, [ROOT, A, B], Follower)
    ensures Looks(k, 2, 2, [ROOT, X], Leader) && Looks(k, 3, 2, [ROOT], Follower) && Looks(k, 4, 2, [ROOT], Follower)
  {
    var k0 := FirstTerm();
    var k1 := Elects(k0, 2, 3, 4, 1, [ROOT], Follower, 0, [ROOT], 0, [ROOT]);
    var k2 := Proposes(k1, 2, 2, [ROOT], X.command);
    assert [ROOT] + [X] == [ROOT, X];
    var a;
    k, a := Replicates(k2, 2, 0, 2, [ROOT, X], 1, [ROOT, A, B], Leader);
    assert [ROOT, A, B][..1] + [ROOT, X][1..] == [ROOT, X];
  }

  /** Server 0 leads term 3 and gives D to server 2. */
  lemma ThirdTerm() returns (k: Cluster, recent: AppendArgs)
    ensures Reachable(k) && AppendAnswer(0, 1, STALE, AppendReply(1, true, 0, 0)) in k.net
    ensures AppendAnswer(0, 2, recent, AppendReply(3, true, 0, 0)) in k.net && recent == AppendArgs(3, 0, 1, 2, [D], 0)
    ensures Looks(k, 0, 3, [ROOT, X, D], Leader) && k.peers[0].node.matchIndex == seq(5, j => 0)
    ensures !SafeCredit(k.peers[0].node, 0, 1, STALE.term, 2)
    ensures Looks(k, 1, 1, [ROOT, A, B], Follower) && Looks(k, 3, 3, [ROOT], Follower) && Looks(k, 4, 3, [ROOT], Follower)
  {
    var k0 := SecondTerm();
    var k1 := Elects(k0, 0, 3, 4, 2, [ROOT, X], Follower, 2, [ROOT], 2, [ROOT]);
    var k2 := Proposes(k1, 0, 3, [ROOT, X], D.command);
    assert [ROOT, X] + [D] == [ROOT, X, D];
    k, recent := Replicates(k2, 0, 2, 3, [ROOT, X, D], 2, [ROOT, X], Leader);
    assert [ROOT, X, D][2..] == [D];
  }

  /** A reply is acted upon whatever term it answers. */
  lemma Hears(k: Cluster, s: nat, from: nat, a: AppendArgs, r: AppendReply, n: Node) returns (k': Cluster)
    requires Reachable(k) && |k.peers| == 5 && s < 5 && from < 5 && k.peers[s].node.Valid(5)
    requires AppendAnswer(s, from, a, r) in k.net && OnAppendReply(k.peers[s].node, s, from, a, r) == Lives(n)
    ensures Reachable(k') && Only(k, k', s) && k'.peers[s].node == n
  {
    var m := AppendAnswer(s, from, a, r);
    Reaches(k, HandleAppendAnswer(s, m));
    k' := Next(k, HandleAppendAnswer(s, m));
  }

  /** The late answer to term 1 makes two real holders of D look like three. */
  lemma Miscounts() returns (k: Cluster)
    ensures Reachable(k) && |k.peers| == 5
    ensures var n := k.peers[0].node; n.log == [ROOT, X, D] && n.term == 3 && n.lastIncluded == 0 && n.commitIndex == 2
    ensures Looks(k, 1, 1, [ROOT, A, B], Follower) && Looks(k, 3, 3, [ROOT], Follower) && Looks(k, 4, 3, [ROOT], Follower)
  {
    var k0, recent := ThirdTerm();
    var n := k0.peers[0].node;
    LateCount(n);
    var n1 := n.(matchIndex := [0, 2, 0, 0, 0], nextIndex := n.nextIndex[1 := 3]);
    var k1 := Hears(k0, 0, 1, STALE, AppendReply(1, true, 0, 0), n1);
    GoodCount(n1);
    var n2 := n1.(matchIndex := [0, 2, 2, 0, 0], nextIndex := n1.nextIndex[2 := 3], commitIndex := 2);
    k := Hears(k1, 0, 2, recent, AppendReply(3, true, 0, 0), n2);
  }

  lemma LateCount(n: Node)
    requires n.Valid(5) && n.log == [ROOT, X, D] && n.term == 3 && n.lastIncluded == n.commitIndex == 0
    requires n.matchIndex == seq(5, j => 0)
    ensures Matched(n, 0, 1, 2) == Lives(n.(matchIndex := [0, 2, 0, 0, 0], nextIndex := n.nextIndex[1 := 3]))
  {
    assert n.matchIndex[1 := 2] == [0, 2, 0, 0, 0];
    FiveHolders(2, 0, 0, 0, 2);
  }

  lemma GoodCount(n: Node)
    requires n.Valid(5) && n.log == [ROOT, X, D] && n.term == 3 && n.lastIncluded == n.commitIndex == 0
    requires n.matchIndex == [0, 2, 0, 0, 0]
    ensures Matched(n, 0, 2, 2) == Lives(n.(matchIndex := [0, 2, 2, 0, 0], nextIndex := n.nextIndex[2 := 3], commitIndex := 2))
  {
    assert n.matchIndex[2 := 2] == [0, 2, 2, 0, 0];
    FiveHolders(2, 2, 0, 0, 2);
  }

  function One(b: bool): nat { if b then 1 else 0 }

  lemma HoldersNext(m: seq<nat>, x: nat, index: nat)
    ensures Holders(m + [x], 0, index) == Holders(m, 0, index) + One(m != [] && x >= index)
  {
    assert (m + [x])[..|m|] == m;
  }

  /** Server 0's count, of five. */
  lemma FiveHolders(b: nat, c: nat, d: nat, e: nat, index: nat)
    ensures Holders([0, b, c, d, e], 0, index) == 1 + One(b >= index) + One(c >= index) + One(d >= index) + One(e >= index)
  {
    HoldersNext([], 0, index);
    HoldersNext([0], b, index);
    HoldersNext([0, b], c, index);
    HoldersNext([0, b, c], d, index);
    HoldersNext([0, b, c, d], e, index);
    assert [] + [0] == [0] && [0] + [b] == [0, b] && [0, b] + [c] == [0, b, c];
    assert [0, b, c] + [d] == [0, b, c, d] && [0, b, c, d] + [e] == [0, b, c, d, e];
  }

  /** Without the hypothesis, leader completeness fails: the leader of term 4 has B where server 0
      counts D as committed in term 3. */
  lemma StaleReplyLosesEntry() returns (k: Cluster)
    ensures Reachable(k) && |k.peers| == 5
    ensures var n := k.peers[0].node; var l := k.peers[1].node;
      && l.role == Leader && n.term < l.term
      && n.lastIncluded == l.lastIncluded == 0 && n.commitIndex == 2
      && |n.log| == |l.log| == 3 && n.log[2] == D != B == l.log[2]
  {
    var k0 := Miscounts();
    var k1, _ := Stands(k0, 1, 1, [ROOT, A, B], Follower);
    var k2, _ := Stands(k1, 1, 2, [ROOT, A, B], Candidate);
    k := Elects(k2, 1, 3, 4, 3, [ROOT, A, B], Candidate, 3, [ROOT], 3, [ROOT]);
  }

  // ----- a stale refusal -----

  const Z := Entry(3, Operation(2, 1, "z"))

  /** Server 1 leads term 2 and probes server 4, whose answer will be late. */
  lemma Probes() returns (k: Cluster)
    ensures Reachable(k) && AppendRequest(4, AppendArgs(2, 1, 2, 1, [], 0)) in k.net
    ensures Looks(k, 1, 2, [ROOT, A, B], Leader) && k.peers[1].node.matchIndex == seq(5, j => 0)
    ensures Looks(k, 2, 1, [ROOT], Follower) && Looks(k, 3, 2, [ROOT], Follower) && Looks(k, 4, 2, [ROOT], Follower)
  {
    var k0 := FirstTerm();
    var k1 := Elects(k0, 1, 3, 4, 1, [ROOT, A, B], Follower, 0, [ROOT], 0, [ROOT]);
    assert [ROOT, A, B][3..] == [];
    Reaches(k1, Replicate(1, 4));
    k := Next(k1, Replicate(1, 4));
  }

  /** Server 2 leads term 3 and overwrites A and B in server 1 with Z, so that its log is shorter. */
  lemma Shortens() returns (k: Cluster)
    ensures Reachable(k) && AppendRequest(4, AppendArgs(2, 1, 2, 1, [], 0)) in k.net
    ensures Looks(k, 1, 3, [ROOT, Z], Follower) && k.peers[1].node.matchIndex == seq(5, j => 0)
    ensures Looks(k, 4, 3, [ROOT], Follower)
  {
    var k0 := Probes();
    var k1, _ := Stands(k0, 2, 1, [ROOT], Follower);
    var k2 := Elects(k1, 2, 3, 4, 2, [ROOT], Candidate, 2, [ROOT], 2, [ROOT]);
    var k3 := Proposes(k2, 2, 3, [ROOT], Z.command);
    assert [ROOT] + [Z] == [ROOT, Z];
    var a;
    k, a := Replicates(k3, 2, 1, 3, [ROOT, Z], 2, [ROOT, A, B], Leader);
    assert [ROOT, A, B][..1] + [ROOT, Z][1..] == [ROOT, Z];
  }

  /** The late answer makes server 1, long out of office, look for a term beyond the end of its log. */
  lemma StaleRefusalPanics() returns (k: Cluster, m: Message)
    ensures Reachable(k) && Possible(k, HandleAppendAnswer(1, m)) && !SoundRefusal(k, HandleAppendAnswer(1, m))
    ensures OnAppendReply(k.peers[1].node, 1, m.from, m.append, m.appendReply).Died?
  {
    var k0 := Shortens();
    var a := AppendArgs(2, 1, 2, 1, [], 0);
    Reaches(k0, HandleAppend(4, AppendRequest(4, a)));
    k := Next(k0, HandleAppend(4, AppendRequest(4, a)));
    m := AppendAnswer(1, 4, a, AppendReply(3, false, 0, 0));
    assert k.peers[1] == k0.peers[1] && k.peers[1].node.matchIndex[4] == 0;
  }
}
