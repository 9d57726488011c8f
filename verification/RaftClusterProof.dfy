/** Every step of the cluster is a step of the history. This holds in every run, stale replies included. */
module RaftClusterProof {
  import opened RaftLog
  import opened RaftNode
  import opened RaftCompaction
  import opened RaftCluster
  import C = RaftCore
  import P = RaftCoreProof

  // ----- the invariant -----

  ghost predicate VoteRecorded(c: C.Core, s: nat, n: Node) {
    n.votedFor == (if (s, n.term) in c.ballots then c.BallotOf(s, n.term).candidate else NOBODY)
  }

  predicate Current(n: Node) {
    n.disk == Persisted(n.term, n.votedFor, n.log, n.lastIncluded, n.snapshot)
  }

  ghost predicate InOffice(c: C.Core, s: nat, term: nat) {
    term in c.reigns && c.reigns[term].leader == s
  }

  ghost predicate NodeOk(c: C.Core, s: nat, n: Node)
    requires C.Shape(c) && s < c.n
  {
    && n.Valid(c.n) && n.term == c.term[s]
    && VoteRecorded(c, s, n)
    && Compacts(n.log, n.lastIncluded, c.log[s])
    && Current(n)
    && (n.role == Leader ==> InOffice(c, s, n.term))
  }

  ghost predicate CampaignOk(c: C.Core, s: nat, p: Peer) {
    p.node.role == Candidate ==>
      && c.Stands(s, p.node.term) && !InOffice(c, s, p.node.term)
      && p.election == Election(1 + |p.counted|, false) && s !in p.counted
      && forall v :: v in p.counted ==> v < c.n && (v, p.node.term) in c.ballots && c.BallotOf(v, p.node.term).candidate == s
  }

  ghost predicate PeerOk(c: C.Core, s: nat, p: Peer)
    requires C.Shape(c) && s < c.n
  {
    NodeOk(c, s, p.node) && CampaignOk(c, s, p)
  }

  ghost predicate AppendOk(c: C.Core, a: AppendArgs) {
    && InOffice(c, a.leader, a.term)
    && Segment(c.LeaderLog(a.term), a.prevLogIndex, a.prevLogTerm, a.entries)
  }

  ghost predicate InstallOk(c: C.Core, a: SnapshotArgs) {
    && InOffice(c, a.leader, a.term)
    && a.lastIncluded < |c.LeaderLog(a.term)|
    && c.LeaderLog(a.term)[a.lastIncluded].term == a.lastIncludedTerm
  }

  ghost predicate MessageOk(c: C.Core, m: Message) {
    match m
    case VoteRequest(to, a) =>
      && to < c.n && to != a.candidate && a.candidate < c.n
      && c.Stands(a.candidate, a.term)
      && var log := c.BallotOf(a.candidate, a.term).log;
         |log| > 0 && a.lastLogIndex == |log| - 1 && a.lastLogTerm == LastTerm(log)
    case VoteAnswer(to, from, asked, r) =>
      r.granted ==>
        && r.term == asked && from < c.n && from != to
        && (from, asked) in c.ballots && c.BallotOf(from, asked).candidate == to
    case AppendRequest(to, a) => to < c.n && to != a.leader && AppendOk(c, a)
    case AppendAnswer(to, from, a, r) =>
      && from < c.n && from != to && to == a.leader && AppendOk(c, a)
      && (r.success ==> c.Acked(from, a.term) >= a.prevLogIndex + |a.entries|)
    case InstallRequest(to, a) => to < c.n && to != a.leader && InstallOk(c, a)
    case InstallAnswer(to, from, a, term) => from < c.n && from != to && to == a.leader && InstallOk(c, a)
  }

  ghost predicate Inv(k: Cluster) {
    && C.Inv(k.core) && k.core.n == |k.peers|
    && (forall s: nat :: s < |k.peers| ==> PeerOk(k.core, s, k.peers[s]))
    && (forall m :: m in k.net ==> MessageOk(k.core, m))
  }

  // ----- what a step of one server leaves alone -----

  lemma PeerFramed(c: C.Core, c': C.Core, s: nat, j: nat, p: Peer)
    requires C.Shape(c) && P.Evolves(c, c', s) && j < c.n && j != s && PeerOk(c, j, p)
    ensures PeerOk(c', j, p)
  {
  }

  lemma AppendOkGrows(c: C.Core, c': C.Core, a: AppendArgs)
    requires C.Grows(c, c') && AppendOk(c, a)
    ensures AppendOk(c', a)
  {
    var l, l' := c.LeaderLog(a.term), c'.LeaderLog(a.term);
    assert l'[..|l|] == l;
    assert l'[a.prevLogIndex + 1..a.prevLogIndex + 1 + |a.entries|] == a.entries;
  }

  lemma MessageGrows(c: C.Core, c': C.Core, m: Message)
    requires C.Grows(c, c') && MessageOk(c, m)
    ensures MessageOk(c', m)
  {
    match m
    case AppendRequest(_, a) => AppendOkGrows(c, c', a);
    case AppendAnswer(_, _, a, _) => AppendOkGrows(c, c', a);
    case _ =>
  }

  lemma PutKeeps(k: Cluster, s: nat, p: Peer, sent: set<Message>, c': C.Core)
    requires Inv(k) && s < |k.peers| && P.Evolves(k.core, c', s)
    requires PeerOk(c', s, p)
    requires forall m :: m in sent ==> MessageOk(c', m)
    ensures Inv(Put(k, s, p, sent, c'))
  {
    var k' := Put(k, s, p, sent, c');
    forall j: nat | j < |k'.peers| ensures PeerOk(k'.core, j, k'.peers[j]) {
      if j != s { PeerFramed(k.core, c', s, j, k.peers[j]); }
    }
    forall m | m in k'.net ensures MessageOk(k'.core, m) {
      if m !in sent { MessageGrows(k.core, c', m); }
    }
  }

  lemma Unmoved(c: C.Core, s: nat)
    requires C.Inv(c)
    ensures P.Evolves(c, c, s)
  {
  }

  /** The history follows a server to a higher term. */
  lemma RaiseOk(c: C.Core, s: nat, term: nat)
    requires C.Inv(c) && s < c.n
    ensures P.Evolves(c, Raise(c, s, term), s)
    ensures Raise(c, s, term) == (if c.term[s] < term then c.(term := c.term[s := term]) else c)
  {
    P.DoEvolves(c, C.BumpTerm(s, term));
    Unmoved(c, s);
  }

  /** Stepping down into a higher term leaves no vote, no office, no campaign. */
  lemma FollowerOk(c: C.Core, s: nat, n: Node, term: nat)
    requires C.Inv(c) && s < c.n && NodeOk(c, s, n) && n.term < term
    ensures NodeOk(Raise(c, s, term), s, BecomeFollower(n, term))
  {
    RaiseOk(c, s, term);
    P.FutureTerm(c, s, term);
  }

  // ----- crash -----

  lemma RebornOk(c: C.Core, s: nat, p: Peer)
    requires C.Shape(c) && s < c.n && PeerOk(c, s, p)
    ensures PeerOk(c, s, Reborn(p, c.n))
  {
  }

  lemma CrashKeeps(k: Cluster, s: nat)
    requires Inv(k) && s < |k.peers|
    ensures Inv(Put(k, s, Reborn(k.peers[s], |k.peers|), {}, k.core))
  {
    Unmoved(k.core, s);
    RebornOk(k.core, s, k.peers[s]);
    PutKeeps(k, s, Reborn(k.peers[s], |k.peers|), {}, k.core);
  }

  // ----- elections -----

  lemma TimeoutKeeps(k: Cluster, s: nat)
    requires Inv(k) && s < |k.peers|
    ensures |k.peers[s].node.log| > 0 && Inv(AfterTimeout(k, s))
  {
    assert PeerOk(k.core, s, k.peers[s]);
    var c, p := k.core, k.peers[s];
    var c' := P.Do(c, C.Stand(s));
    P.DoEvolves(c, C.Stand(s));
    var (n', args) := StartElection(p.node, s);
    var p' := p.(node := n', election := Election(1, false), counted := {});
    var sent := set i | 0 <= i < |k.peers| && i != s :: VoteRequest(i, args);
    CompactsLast(p.node.log, p.node.lastIncluded, c.log[s]);
    P.FutureTerm(c, s, c.term[s] + 1);
    assert PeerOk(c', s, p');
    PutKeeps(k, s, p', sent, c');
  }

  lemma VoteKeeps(k: Cluster, s: nat, a: VoteArgs)
    requires Inv(k) && s < |k.peers| && MessageOk(k.core, VoteRequest(s, a))
    ensures |k.peers[s].node.log| > 0 && Inv(AfterVote(k, s, a))
  {
    assert PeerOk(k.core, s, k.peers[s]);
    var p := k.peers[s];
    VotePeerOk(k.core, s, p, a);
    var (n', r) := OnRequestVote(p.node, a);
    PutKeeps(k, s, p.(node := n'), {VoteAnswer(a.candidate, s, a.term, r)}, VoteHistory(k.core, s, a, r));
  }

  lemma VotePeerOk(c: C.Core, s: nat, p: Peer, a: VoteArgs)
    requires C.Inv(c) && s < c.n && PeerOk(c, s, p) && MessageOk(c, VoteRequest(s, a))
    ensures var (n', r) := OnRequestVote(p.node, a);
      var c' := VoteHistory(c, s, a, r);
      P.Evolves(c, c', s) && PeerOk(c', s, p.(node := n')) && MessageOk(c', VoteAnswer(a.candidate, s, a.term, r))
  {
    var c1 := Raise(c, s, a.term);
    RaiseOk(c, s, a.term);
    var n1 := if p.node.term < a.term then BecomeFollower(p.node, a.term) else p.node;
    if p.node.term < a.term { FollowerOk(c, s, p.node, a.term); }
    var (n', r) := OnRequestVote(p.node, a);
    if r.granted {
      MessageGrows(c, c1, VoteRequest(s, a));
      GrantOk(c1, s, n1, a);
      P.EvolvesTwice(c, c1, P.Do(c1, C.Cast(s, a.candidate)), s);
    }
  }

  /** A granted vote is a ballot the history accepts. */
  lemma GrantOk(c: C.Core, s: nat, n: Node, a: VoteArgs)
    requires C.Inv(c) && s < c.n && NodeOk(c, s, n) && n.term == a.term
    requires MessageOk(c, VoteRequest(s, a))
    requires n.votedFor == a.candidate || n.votedFor == NOBODY
    requires a.lastLogTerm > LastTerm(n.log) || (a.lastLogTerm == LastTerm(n.log) && a.lastLogIndex >= n.LastIndex())
    ensures var c' := P.Do(c, C.Cast(s, a.candidate));
      && P.Evolves(c, c', s)
      && NodeOk(c', s, Persist(n.(votedFor := a.candidate, role := Follower)))
      && (s, a.term) in c'.ballots && c'.BallotOf(s, a.term).candidate == a.candidate
  {
    CompactsLast(n.log, n.lastIncluded, c.log[s]);
    assert C.Enabled(c, C.Cast(s, a.candidate));
    P.DoEvolves(c, C.Cast(s, a.candidate));
  }

  lemma VoteAnswerKeeps(k: Cluster, s: nat, from: nat, asked: nat, r: VoteReply)
    requires Inv(k) && s < |k.peers| && MessageOk(k.core, VoteAnswer(s, from, asked, r))
    requires asked == k.peers[s].node.term ==> from !in k.peers[s].counted
    ensures |k.peers[s].node.log| > 0 && Inv(AfterVoteAnswer(k, s, from, r))
  {
    assert PeerOk(k.core, s, k.peers[s]);
    var c, p := k.core, k.peers[s];
    var (n', e') := OnVoteReply(p.node, p.election, |k.peers|, r);
    RaiseOk(c, s, r.term);
    if Counts(p.node, r) {
      var counted' := p.counted + {from};
      CountOk(c, s, p, from, asked, r);
      var c' := if n'.role == Leader then P.Do(c, C.Win(s, {s} + counted')) else c;
      PutKeeps(k, s, p.(node := n', election := e', counted := counted'), {}, c');
    } else {
      if r.term > p.node.term { FollowerOk(c, s, p.node, r.term); }
      PutKeeps(k, s, p.(node := n', election := e'), {}, Raise(c, s, r.term));
    }
  }

  lemma CountOk(c: C.Core, s: nat, p: Peer, from: nat, asked: nat, r: VoteReply)
    requires C.Inv(c) && s < c.n && PeerOk(c, s, p) && MessageOk(c, VoteAnswer(s, from, asked, r))
    requires asked == p.node.term ==> from !in p.counted
    requires Counts(p.node, r)
    ensures var (n', e') := OnVoteReply(p.node, p.election, c.n, r);
      var counted' := p.counted + {from};
      var c' := if n'.role == Leader then P.Do(c, C.Win(s, {s} + counted')) else c;
      P.Evolves(c, c', s) && PeerOk(c', s, p.(node := n', election := e', counted := counted'))
  {
    var (n', e') := OnVoteReply(p.node, p.election, c.n, r);
    Unmoved(c, s);
    assert |p.counted + {from}| == |p.counted| + 1;
    if n'.role == Leader {
      WinOk(c, s, p, p.counted + {from});
    }
  }

  /** More than half of the votes counted is a quorum of ballots. */
  lemma WinOk(c: C.Core, s: nat, p: Peer, counted: set<nat>)
    requires C.Inv(c) && s < c.n && PeerOk(c, s, p) && p.node.role == Candidate
    requires s !in counted && 1 + |counted| > c.n / 2
    requires forall v :: v in counted ==>
      v < c.n && (v, p.node.term) in c.ballots && c.BallotOf(v, p.node.term).candidate == s
    ensures var c' := P.Do(c, C.Win(s, {s} + counted));
      P.Evolves(c, c', s) && InOffice(c', s, p.node.term) && c'.term[s] == p.node.term && c'.log == c.log
      && c'.ballots == c.ballots
  {
    assert |{s} + counted| == 1 + |counted|;
    assert C.Enabled(c, C.Win(s, {s} + counted));
    P.DoEvolves(c, C.Win(s, {s} + counted));
  }

  // ----- replication -----

  lemma ClientKeeps(k: Cluster, s: nat, command: Command)
    requires Inv(k) && s < |k.peers|
    ensures Inv(AfterClient(k, s, command))
  {
    assert PeerOk(k.core, s, k.peers[s]);
    var c, p := k.core, k.peers[s];
    if p.node.role == Leader {
      assert C.Enabled(c, C.Propose(s, command));
      P.DoEvolves(c, C.Propose(s, command));
      CompactsAppend(p.node.log, p.node.lastIncluded, c.log[s], Entry(p.node.term, command));
      PutKeeps(k, s, p.(node := Propose(p.node, command)), {}, P.Do(c, C.Propose(s, command)));
    } else {
      Unmoved(c, s);
      PutKeeps(k, s, p, {}, c);
    }
  }

  /** The log a leader works from is the log of its reign. */
  lemma LeaderHasReign(c: C.Core, s: nat, n: Node)
    requires C.Inv(c) && s < c.n && NodeOk(c, s, n) && n.role == Leader
    ensures c.log[s] == c.LeaderLog(n.term)
  {
    assert C.ElectedOk(c, n.term);
  }

  lemma SendOk(c: C.Core, s: nat, n: Node, i: nat)
    requires C.Inv(c) && s < c.n && NodeOk(c, s, n) && i < c.n
    ensures match Send(n, s, i)
      case Lives(Append(a)) => AppendOk(c, a)
      case Lives(Install(a)) => InstallOk(c, a)
      case _ => true
  {
    if n.role == Leader {
      LeaderHasReign(c, s, n);
      var full := c.log[s];
      if n.lastIncluded < n.nextIndex[i] && n.InLog(n.nextIndex[i] - 1) {
        var prev := n.nextIndex[i] - 1;
        CompactsAt(n.log, n.lastIncluded, full, prev);
        assert n.log[prev + 1 - n.lastIncluded..] == n.log[1..][prev - n.lastIncluded..];
        assert full[prev + 1..] == full[n.lastIncluded + 1..][prev - n.lastIncluded..];
        assert full[prev + 1..] == full[prev + 1..prev + 1 + |full[prev + 1..]|];
      }
    }
  }

  lemma ReplicateKeeps(k: Cluster, s: nat, i: nat)
    requires Inv(k) && s < |k.peers| && i < |k.peers| && i != s
    ensures k.peers[s].node.Valid(|k.peers|) && Inv(AfterReplicate(k, s, i))
  {
    assert PeerOk(k.core, s, k.peers[s]);
    var p := k.peers[s];
    SendOk(k.core, s, p.node, i);
    Unmoved(k.core, s);
    match Send(p.node, s, i)
    case Died => CrashKeeps(k, s);
    case Lives(Silent) =>
    case Lives(Append(a)) => PutKeeps(k, s, p, {AppendRequest(i, a)}, k.core);
    case Lives(Install(a)) => PutKeeps(k, s, p, {InstallRequest(i, a)}, k.core);
  }

  lemma AppendKeeps(k: Cluster, s: nat, a: AppendArgs)
    requires Inv(k) && s < |k.peers| && MessageOk(k.core, AppendRequest(s, a))
    ensures |k.peers[s].node.log| > 0 && Inv(AfterAppend(k, s, a))
  {
    assert PeerOk(k.core, s, k.peers[s]);
    var p := k.peers[s];
    AppendPeerOk(k.core, s, p, a);
    var (n', r) := OnAppendEntries(p.node, a);
    PutKeeps(k, s, p.(node := n'), {AppendAnswer(a.leader, s, a, r)}, AppendHistory(k.core, s, a, r));
  }

  lemma AppendPeerOk(c: C.Core, s: nat, p: Peer, a: AppendArgs)
    requires C.Inv(c) && s < c.n && PeerOk(c, s, p) && MessageOk(c, AppendRequest(s, a))
    ensures var (n', r) := OnAppendEntries(p.node, a);
      var c' := AppendHistory(c, s, a, r);
      P.Evolves(c, c', s) && PeerOk(c', s, p.(node := n')) && MessageOk(c', AppendAnswer(a.leader, s, a, r))
  {
    var c1 := Raise(c, s, a.term);
    RaiseOk(c, s, a.term);
    AppendOkGrows(c, c1, a);
    if p.node.term <= a.term {
      HeardOk(c, s, p.node, a.term);
      HeardAppendOk(c, c1, s, p, Heard(p.node, a.term), a);
    }
  }

  lemma HeardAppendOk(c: C.Core, c1: C.Core, s: nat, p: Peer, n: Node, a: AppendArgs)
    requires P.Evolves(c, c1, s) && s < c1.n && NodeOk(c1, s, n) && n.term == a.term && n.role != Candidate
    requires AppendOk(c1, a) && a.leader != s
    ensures var (n', r) := Judged(n, a);
      var c' := JudgedHistory(c1, s, a, r);
      P.Evolves(c, c', s) && PeerOk(c', s, p.(node := n')) && MessageOk(c', AppendAnswer(a.leader, s, a, r))
  {
    JudgedMatch(n, a);
    var (n', r) := Judged(n, a);
    var c' := JudgedHistory(c1, s, a, r);
    JudgedOk(c1, s, p, n, a, n', r, c');
    P.EvolvesTwice(c, c1, c', s);
  }

  lemma HeardOk(c: C.Core, s: nat, n: Node, term: nat)
    requires C.Inv(c) && s < c.n && NodeOk(c, s, n) && n.term <= term
    ensures NodeOk(Raise(c, s, term), s, Heard(n, term))
  {
    if n.term < term { FollowerOk(c, s, n, term); }
  }

  predicate Matches(n: Node, a: AppendArgs) {
    n.InLog(a.prevLogIndex) && n.TermAt(a.prevLogIndex) == a.prevLogTerm
  }

  lemma JudgedOk(c: C.Core, s: nat, p: Peer, n: Node, a: AppendArgs, n': Node, r: AppendReply, c': C.Core)
    requires C.Inv(c) && s < c.n && NodeOk(c, s, n) && n.term == a.term && n.role != Candidate
    requires AppendOk(c, a) && a.leader != s
    requires if Matches(n, a)
             then
               && n' == TakeEntries(n, a) && r == AppendReply(n.term, true, 0, 0)
               && c' == P.Do(c, C.Accept(s, a.prevLogIndex + |a.entries|))
             else n' == n && !r.success && c' == c
    ensures P.Evolves(c, c', s) && PeerOk(c', s, p.(node := n')) && MessageOk(c', AppendAnswer(a.leader, s, a, r))
  {
    if Matches(n, a) {
      MatchedOk(c, s, p, n, a);
    } else {
      Unmoved(c, s);
    }
  }

  lemma JudgedMatch(n: Node, a: AppendArgs)
    requires |n.log| > 0
    ensures if Matches(n, a) then Judged(n, a) == (TakeEntries(n, a), AppendReply(n.term, true, 0, 0))
            else Judged(n, a).0 == n && !Judged(n, a).1.success && Judged(n, a).1.term == n.term
  {
  }

  lemma MatchedOk(c: C.Core, s: nat, p: Peer, n: Node, a: AppendArgs)
    requires C.Inv(c) && s < c.n && NodeOk(c, s, n) && n.term == a.term && n.role != Candidate
    requires AppendOk(c, a) && a.leader != s && Matches(n, a)
    ensures var c' := P.Do(c, C.Accept(s, a.prevLogIndex + |a.entries|));
      && P.Evolves(c, c', s) && PeerOk(c', s, p.(node := TakeEntries(n, a)))
      && MessageOk(c', AppendAnswer(a.leader, s, a, AppendReply(n.term, true, 0, 0)))
  {
    AcceptOk(c, s, a.prevLogIndex + |a.entries|);
    TakeOk(c, P.Do(c, C.Accept(s, a.prevLogIndex + |a.entries|)), s, p, n, a);
  }

  lemma AcceptOk(c: C.Core, s: nat, m: nat)
    requires C.Inv(c) && s < c.n && c.term[s] in c.reigns && m < |c.LeaderLog(c.term[s])|
    ensures Accepted(c, P.Do(c, C.Accept(s, m)), s, m)
  {
    P.DoEvolves(c, C.Accept(s, m));
  }

  /** Server s has taken over its leader's log up to m. */
  ghost predicate Accepted(c: C.Core, c': C.Core, s: nat, m: nat)
    requires C.Shape(c) && s < c.n && c.term[s] in c.reigns && m < |c.LeaderLog(c.term[s])|
  {
    && P.Evolves(c, c', s)
    && c' == c.(log := c.log[s := C.Merge(c.log[s], c.LeaderLog(c.term[s]), m)], acks := c'.acks)
    && c'.Acked(s, c.term[s]) >= m
  }

  /** A successful AppendEntries is one Accept of the history, and it is acknowledged. */
  lemma TakeOk(c: C.Core, c': C.Core, s: nat, p: Peer, n: Node, a: AppendArgs)
    requires C.Inv(c) && s < c.n && NodeOk(c, s, n) && n.term == a.term && n.role != Candidate
    requires AppendOk(c, a) && Matches(n, a) && a.leader != s && Accepted(c, c', s, a.prevLogIndex + |a.entries|)
    ensures PeerOk(c', s, p.(node := TakeEntries(n, a)))
    ensures MessageOk(c', AppendAnswer(a.leader, s, a, AppendReply(n.term, true, 0, 0)))
  {
    TakeMerges(c, s, n, a);
    TakenKept(n, a);
    TakenOk(c, c', s, n, TakeEntries(n, a), a);
  }

  /** What TakeEntries leaves of a node, apart from the log and the commit index. */
  predicate Kept(n: Node, n': Node) {
    && n' == n.(log := n'.log, disk := n'.disk, commitIndex := n'.commitIndex)
    && (Current(n) ==> Current(n'))
  }

  lemma TakenKept(n: Node, a: AppendArgs)
    requires n.InLog(a.prevLogIndex) && |n.log| > 0
    ensures Kept(n, TakeEntries(n, a))
  {
  }

  lemma TakenOk(c: C.Core, c': C.Core, s: nat, n: Node, n': Node, a: AppendArgs)
    requires C.Shape(c) && C.Shape(c') && s < c.n && NodeOk(c, s, n) && n.role != Candidate && Kept(n, n')
    requires c'.n == c.n && c'.term == c.term && c'.ballots == c.ballots && c'.reigns == c.reigns
    requires Compacts(n'.log, n.lastIncluded, c'.log[s]) && AppendOk(c, a)
    ensures NodeOk(c', s, n') && n'.role != Candidate && AppendOk(c', a)
  {
  }

  lemma TakeMerges(c: C.Core, s: nat, n: Node, a: AppendArgs)
    requires C.Shape(c) && C.LogsOk(c) && C.ReignsOk(c) && s < c.n && NodeOk(c, s, n) && AppendOk(c, a)
    requires n.InLog(a.prevLogIndex) && n.TermAt(a.prevLogIndex) == a.prevLogTerm
    ensures Compacts(TakeEntries(n, a).log, n.lastIncluded,
                     C.Merge(c.log[s], c.LeaderLog(a.term), a.prevLogIndex + |a.entries|))
  {
    assert C.ReignOk(c, a.term);
    CompactsAt(n.log, n.lastIncluded, c.log[s], a.prevLogIndex);
    SplicedMerges(c.reigns, n.log, n.lastIncluded, c.log[s], c.LeaderLog(a.term), a.prevLogIndex, a.prevLogTerm, a.entries);
    TakenLog(n, a);
    CompactsSame(Spliced(n.log, a.prevLogIndex + 1 - n.lastIncluded, a.entries), TakeEntries(n, a).log, n.lastIncluded,
                 C.Merge(c.log[s], c.LeaderLog(a.term), a.prevLogIndex + |a.entries|));
  }

  lemma CompactsSame(x: Log, y: Log, base: nat, full: Log)
    requires x == y && Compacts(x, base, full)
    ensures Compacts(y, base, full)
  {
  }

  lemma TakenLog(n: Node, a: AppendArgs)
    requires |n.log| > 0 && n.InLog(a.prevLogIndex)
    ensures TakeEntries(n, a).log == Spliced(n.log, a.prevLogIndex + 1 - n.lastIncluded, a.entries)
  {
  }

  lemma AppendAnswerKeeps(k: Cluster, s: nat, from: nat, a: AppendArgs, r: AppendReply)
    requires Inv(k) && s < |k.peers| && from < |k.peers|
    ensures k.peers[s].node.Valid(|k.peers|) && Inv(AfterAppendAnswer(k, s, from, a, r))
  {
    assert PeerOk(k.core, s, k.peers[s]);
    var p := k.peers[s];
    AnswerPeerOk(k.core, s, p, OnAppendReply(p.node, s, from, a, r), r.term);
    PutKeeps(k, s, Survive(p, |k.peers|, OnAppendReply(p.node, s, from, a, r)), {}, Raise(k.core, s, r.term));
  }

  lemma InstallAnswerKeeps(k: Cluster, s: nat, from: nat, a: SnapshotArgs, term: nat)
    requires Inv(k) && s < |k.peers| && from < |k.peers|
    ensures k.peers[s].node.Valid(|k.peers|) && Inv(AfterInstallAnswer(k, s, from, a, term))
  {
    assert PeerOk(k.core, s, k.peers[s]);
    var p := k.peers[s];
    AnswerPeerOk(k.core, s, p, OnSnapshotReply(p.node, s, from, a, term), term);
    PutKeeps(k, s, Survive(p, |k.peers|, OnSnapshotReply(p.node, s, from, a, term)), {}, Raise(k.core, s, term));
  }

  /** Fields that carry no safety of elections and logs: a stale reply may set them to anything. */
  predicate SameButProgress(n: Node, n': Node) {
    n' == n.(nextIndex := n'.nextIndex, matchIndex := n'.matchIndex, commitIndex := n'.commitIndex)
    && |n'.nextIndex| == |n.nextIndex| && |n'.matchIndex| == |n.matchIndex|
  }

  lemma AnswerPeerOk(c: C.Core, s: nat, p: Peer, o: Outcome<Node>, term: nat)
    requires C.Inv(c) && s < c.n && PeerOk(c, s, p)
    requires if term > p.node.term then o == Lives(BecomeFollower(p.node, term))
             else o.Died? || SameButProgress(p.node, o.value)
    ensures P.Evolves(c, Raise(c, s, term), s) && PeerOk(Raise(c, s, term), s, Survive(p, c.n, o))
  {
    RaiseOk(c, s, term);
    if term > p.node.term { FollowerOk(c, s, p.node, term); }
    RebornOk(c, s, p);
  }

  lemma InstallKeeps(k: Cluster, s: nat, a: SnapshotArgs)
    requires Inv(k) && s < |k.peers| && MessageOk(k.core, InstallRequest(s, a))
    ensures |k.peers[s].node.log| > 0 && Inv(AfterInstall(k, s, a))
  {
    assert PeerOk(k.core, s, k.peers[s]);
    var p := k.peers[s];
    InstallPeerOk(k.core, s, p, a);
    var (n', term) := OnInstallSnapshot(p.node, a);
    PutKeeps(k, s, p.(node := n'), {InstallAnswer(a.leader, s, a, term)}, InstallHistory(k.core, s, p.node, a));
  }

  lemma InstallPeerOk(c: C.Core, s: nat, p: Peer, a: SnapshotArgs)
    requires C.Inv(c) && s < c.n && PeerOk(c, s, p) && MessageOk(c, InstallRequest(s, a))
    ensures var (n', term) := OnInstallSnapshot(p.node, a);
      var c' := InstallHistory(c, s, p.node, a);
      P.Evolves(c, c', s) && PeerOk(c', s, p.(node := n')) && MessageOk(c', InstallAnswer(a.leader, s, a, term))
  {
    if p.node.term <= a.term {
      var c1 := Raise(c, s, a.term);
      RaiseOk(c, s, a.term);
      HeardInstallOk(c, s, p, a.term);
      var p1 := p.(node := HeardInstall(p.node, a.term));
      InstalledOk(c1, s, p1, a);
      P.EvolvesTwice(c, c1, InstalledHistory(c1, s, p1.node, a), s);
    } else {
      Unmoved(c, s);
    }
  }

  lemma HeardInstallOk(c: C.Core, s: nat, p: Peer, term: nat)
    requires C.Inv(c) && s < c.n && PeerOk(c, s, p) && p.node.term <= term
    ensures PeerOk(Raise(c, s, term), s, p.(node := HeardInstall(p.node, term)))
  {
    if p.node.term < term { FollowerOk(c, s, p.node, term); }
  }

  lemma InstalledOk(c: C.Core, s: nat, p: Peer, a: SnapshotArgs)
    requires C.Inv(c) && s < c.n && PeerOk(c, s, p) && p.node.term == a.term && InstallOk(c, a)
    ensures var c' := InstalledHistory(c, s, p.node, a);
      P.Evolves(c, c', s) && PeerOk(c', s, p.(node := Installed(p.node, a))) && InstallOk(c', a)
  {
    if p.node.lastIncluded < a.lastIncluded || Covered(c, s, a) {
      AcceptOk(c, s, a.lastIncluded);
      if p.node.lastIncluded < a.lastIncluded {
        AdoptMerges(c, s, p.node, a);
      } else {
        AgreeMerges(c, s, a);
      }
      AdoptedPeerOk(c, P.Do(c, C.Accept(s, a.lastIncluded)), s, p, a);
    } else {
      Unmoved(c, s);
    }
  }

  lemma AdoptMerges(c: C.Core, s: nat, n: Node, a: SnapshotArgs)
    requires C.Shape(c) && C.LogsOk(c) && C.ReignsOk(c) && s < c.n && NodeOk(c, s, n)
    requires InstallOk(c, a) && n.lastIncluded < a.lastIncluded
    ensures Compacts(AdoptSnapshot(n, a).log, a.lastIncluded, C.Merge(c.log[s], c.LeaderLog(a.term), a.lastIncluded))
  {
    assert C.ReignOk(c, a.term);
    AdoptSnapshotMerges(c.reigns, n, c.log[s], c.LeaderLog(a.term), a);
  }

  lemma AgreeMerges(c: C.Core, s: nat, a: SnapshotArgs)
    requires Covered(c, s, a) && a.lastIncluded < |c.LeaderLog(a.term)|
    ensures C.Merge(c.log[s], c.LeaderLog(a.term), a.lastIncluded) == c.log[s]
  {
  }

  lemma AdoptedPeerOk(c: C.Core, c': C.Core, s: nat, p: Peer, a: SnapshotArgs)
    requires C.Shape(c) && C.Shape(c') && s < c.n && PeerOk(c, s, p) && p.node.term == a.term
    requires c'.n == c.n && c'.term == c.term && c'.ballots == c.ballots && c'.reigns == c.reigns
    requires if p.node.lastIncluded < a.lastIncluded
             then Compacts(AdoptSnapshot(p.node, a).log, a.lastIncluded, c'.log[s])
             else c'.log[s] == c.log[s]
    ensures PeerOk(c', s, p.(node := Installed(p.node, a)))
  {
  }

  // ----- the service and the applier -----

  lemma ServiceSnapshotKeeps(k: Cluster, s: nat)
    requires Inv(k) && s < |k.peers|
    ensures Inv(AfterServiceSnapshot(k, s))
  {
    assert PeerOk(k.core, s, k.peers[s]);
    var c, p := k.core, k.peers[s];
    Unmoved(c, s);
    RebornOk(c, s, p);
    if p.node.lastIncluded < p.journalIndex && p.node.InLog(p.journalIndex) {
      CompactsCut(p.node.log, p.node.lastIncluded, c.log[s], p.journalIndex);
    }
    PutKeeps(k, s, Survive(p, |k.peers|, OnSnapshot(p.node, p.journalIndex, p.journal)), {}, c);
  }

  lemma TakeKeeps(k: Cluster, s: nat)
    requires Inv(k) && s < |k.peers|
    ensures |k.peers[s].node.log| > 0 && Inv(AfterTake(k, s))
  {
    assert PeerOk(k.core, s, k.peers[s]);
    var p := k.peers[s];
    Unmoved(k.core, s);
    match TakeMessage(p.node)
    case Died => CrashKeeps(k, s);
    case Lives((n', Nothing)) =>
    case Lives((n', Message(msg))) => PutKeeps(k, s, p.(node := n', applier := Holding(msg)), {}, k.core);
  }

  lemma DeliverKeeps(k: Cluster, s: nat)
    requires Inv(k) && s < |k.peers| && k.peers[s].applier.Holding?
    ensures Inv(AfterDeliver(k, s))
  {
    assert PeerOk(k.core, s, k.peers[s]);
    Unmoved(k.core, s);
    PutKeeps(k, s, AfterDeliver(k, s).peers[s], {}, k.core);
  }

  lemma FinishKeeps(k: Cluster, s: nat)
    requires Inv(k) && s < |k.peers| && k.peers[s].applier.Delivered?
    ensures Inv(AfterFinish(k, s))
  {
    assert PeerOk(k.core, s, k.peers[s]);
    Unmoved(k.core, s);
    PutKeeps(k, s, AfterFinish(k, s).peers[s], {}, k.core);
  }

  // ----- every step of every run -----

  lemma NextKeeps(k: Cluster, step: Step)
    requires Inv(k) && Possible(k, step)
    ensures Inv(Next(k, step))
  {
    match step
    case Timeout(s) => TimeoutKeeps(k, s);
    case HandleVote(s, m) => VoteKeeps(k, s, m.vote);
    case HandleVoteAnswer(s, m) => VoteAnswerKeeps(k, s, m.from, m.asked, m.voteReply);
    case Client(s, command) => ClientKeeps(k, s, command);
    case Replicate(s, i) => ReplicateKeeps(k, s, i);
    case HandleAppend(s, m) => AppendKeeps(k, s, m.append);
    case HandleAppendAnswer(s, m) => AppendAnswerKeeps(k, s, m.from, m.append, m.appendReply);
    case HandleInstall(s, m) => InstallKeeps(k, s, m.install);
    case HandleInstallAnswer(s, m) => InstallAnswerKeeps(k, s, m.from, m.install, m.term);
    case ServiceSnapshot(s) => ServiceSnapshotKeeps(k, s);
    case Take(s) => TakeKeeps(k, s);
    case Deliver(s) => DeliverKeeps(k, s);
    case Finish(s) => FinishKeeps(k, s);
    case Crash(s) => CrashKeeps(k, s);
  }

  lemma InitKeeps(k: Cluster)
    requires Init(k)
    ensures Inv(k)
  {
    C.InitInv(k.core);
    forall s: nat | s < |k.peers| ensures PeerOk(k.core, s, k.peers[s]) {
      assert k.core.log[s] == [ROOT];
    }
  }
}
