/**
 * What the steps of a run do, not only what they keep: which votes are given, when a candidate takes
 * office, what a leader sends, which appends are taken, what is handed to the service. All in terms
 * of the history and the full logs.
 */
module RaftSteps {
  import opened RaftLog
  import opened RaftNode
  import opened RaftCompaction
  import opened RaftCluster
  import opened RaftClusterProof
  import opened RaftCommit
  import opened RaftSafety
  import opened RaftBackup
  import opened RaftRefinement
  import C = RaftCore

  lemma ServerIn(states: seq<Cluster>, steps: seq<Step>, i: nat, s: nat)
    requires Run(states, steps) && i < |states| && s < |states[i].peers|
    ensures var c := states[i].core; C.Inv(c) && s < c.n == |states[i].peers| && PeerOk(c, s, states[i].peers[s])
  {
    RunInv(states, steps, i);
  }

  // ----- elections -----

  /** The history has the server's vote in this term, for somebody else. */
  ghost predicate VotedAgainst(c: C.Core, s: nat, a: VoteArgs) {
    (s, a.term) in c.ballots && c.BallotOf(s, a.term).candidate != a.candidate
  }

  ghost predicate Deserves(c: C.Core, s: nat, term: nat, a: VoteArgs)
    requires s < |c.log| && |c.log[s]| > 0
  {
    && a.term >= term
    && !VotedAgainst(c, s, a)
    && AtLeastAsRecent(a.lastLogTerm, a.lastLogIndex, c.log[s])
  }

  lemma VoteExactly(c: C.Core, s: nat, n: Node, a: VoteArgs)
    requires C.Inv(c) && s < c.n && NodeOk(c, s, n)
    ensures var r := OnRequestVote(n, a).1;
      && (r.granted <==> Deserves(c, s, n.term, a))
      && r.term == if a.term < n.term then n.term else if r.granted || VotedAgainst(c, s, a) then a.term else 0
    ensures OnRequestVote(n, a).0.term == Max(n.term, a.term)
  {
    CompactsLast(n.log, n.lastIncluded, c.log[s]);
    assert (s, a.term) in c.ballots ==> C.BallotOk(c, s, a.term);
  }

  /**
   * A vote is granted if and only if the request is not of an older term, the server has not voted
   * for another in its term, and the candidate's log is at least as recent as the server's full log.
   * A request of an older term is answered with the server's own; a refusal for the log carries 0.
   */
  lemma VotesExactly(states: seq<Cluster>, steps: seq<Step>, i: nat, s: nat, m: Message) returns (r: VoteReply)
    requires Run(states, steps) && i < |states| && Possible(states[i], HandleVote(s, m))
    ensures s < |states[i].core.log| && |states[i].core.log[s]| > 0
    ensures var k := states[i]; var k' := Next(k, HandleVote(s, m)); var c := k.core; var a := m.vote;
      && k'.net == k.net + {VoteAnswer(a.candidate, s, a.term, r)}
      && (r.granted <==> Deserves(c, s, k.peers[s].node.term, a))
      && r.term == (if a.term < k.peers[s].node.term then k.peers[s].node.term
                    else if r.granted || VotedAgainst(c, s, a) then a.term else 0)
      && k'.peers[s].node.term == Max(k.peers[s].node.term, a.term)
      && (r.granted ==> (s, a.term) in k'.core.ballots && k'.core.BallotOf(s, a.term).candidate == a.candidate)
  {
    ServerIn(states, steps, i, s);
    var k := states[i];
    VoteExactly(k.core, s, k.peers[s].node, m.vote);
    r := OnRequestVote(k.peers[s].node, m.vote).1;
    RunInv(states, steps, i);
    NextKeeps(k, HandleVote(s, m));
    assert PeerOk(Next(k, HandleVote(s, m)).core, s, Next(k, HandleVote(s, m)).peers[s]);
    if r.granted { GrantRecorded(k.peers[s].node, m.vote); }
  }

  lemma GrantRecorded(n: Node, a: VoteArgs)
    requires |n.log| > 0 && OnRequestVote(n, a).1.granted
    ensures OnRequestVote(n, a).0.votedFor == a.candidate && OnRequestVote(n, a).0.term == a.term
  {
  }

  /** A candidate votes for itself in the next term and asks everybody else, with the end of its full log. */
  lemma CampaignsExactly(states: seq<Cluster>, steps: seq<Step>, i: nat, s: nat)
    requires Run(states, steps) && i < |states| && Possible(states[i], Timeout(s))
    ensures s < |states[i].core.log| && |states[i].core.log[s]| > 0
    ensures var k := states[i]; var k' := Next(k, Timeout(s)); var n := k.peers[s].node; var log := k.core.log[s];
      && k'.peers[s].node.term == n.term + 1 && k'.peers[s].node.role == Candidate
      && k'.core.Stands(s, n.term + 1)
      && forall m :: m in k'.net && m !in k.net <==>
           m !in k.net && m.VoteRequest? && m.to < |k.peers| && m.to != s &&
           m.vote == VoteArgs(n.term + 1, s, |log| - 1, LastTerm(log))
  {
    ServerIn(states, steps, i, s);
    var k, n := states[i], states[i].peers[s].node;
    CompactsLast(n.log, n.lastIncluded, k.core.log[s]);
    var a := VoteArgs(n.term + 1, s, |k.core.log[s]| - 1, LastTerm(k.core.log[s]));
    assert StartElection(n, s).1 == a;
    forall j: nat | j < |k.peers| && j != s ensures VoteRequest(j, a) in Next(k, Timeout(s)).net {}
    RunInv(states, steps, i);
    NextKeeps(k, Timeout(s));
    assert PeerOk(Next(k, Timeout(s)).core, s, Next(k, Timeout(s)).peers[s]);
  }

  /** The vote is one the candidate counts. */
  ghost predicate IsCounted(p: Peer, r: VoteReply) {
    p.node.role == Candidate && r.granted && r.term == p.node.term
  }

  ghost predicate TakesOffice(n: Node, n': Node) {
    n.role != Leader && n'.role == Leader
  }

  lemma CountExactly(c: C.Core, s: nat, p: Peer, from: nat, r: VoteReply)
    requires C.Shape(c) && s < c.n && PeerOk(c, s, p) && r.term <= p.node.term
    requires IsCounted(p, r) ==> from != s && from !in p.counted
    ensures var (n', e) := OnVoteReply(p.node, p.election, c.n, r);
      && (!IsCounted(p, r) ==> n' == p.node && e == p.election)
      && (TakesOffice(p.node, n') <==> IsCounted(p, r) && 2 * |{s} + p.counted + {from}| > c.n)
      && (TakesOffice(p.node, n') ==>
            n'.nextIndex == seq(c.n, _ => |c.log[s]|) && n'.matchIndex == seq(c.n, _ => 0))
  {
    if IsCounted(p, r) { assert |{s} + p.counted + {from}| == |p.counted| + 2; }
  }

  /**
   * A candidate counts each vote of its term, and takes office if and only if the votes counted, with
   * its own, are a majority. It then knows nothing of the others' logs.
   */
  lemma OfficeExactly(states: seq<Cluster>, steps: seq<Step>, i: nat, s: nat, m: Message)
    requires Run(states, steps) && i < |states| && Possible(states[i], HandleVoteAnswer(s, m))
    requires m.voteReply.term <= states[i].peers[s].node.term
    ensures s < |states[i].core.log|
    ensures var k := states[i]; var p := k.peers[s]; var p' := Next(k, HandleVoteAnswer(s, m)).peers[s];
      && (IsCounted(p, m.voteReply) ==> p'.counted == p.counted + {m.from})
      && (!IsCounted(p, m.voteReply) ==> p' == p)
      && (TakesOffice(p.node, p'.node) <==>
            IsCounted(p, m.voteReply) && 2 * |{s} + p.counted + {m.from}| > |k.peers|)
      && (TakesOffice(p.node, p'.node) ==>
            && p'.node.nextIndex == seq(|k.peers|, _ => |k.core.log[s]|)
            && p'.node.matchIndex == seq(|k.peers|, _ => 0))
  {
    ServerIn(states, steps, i, s);
    VoteIsNew(states, steps, i, s, m);
    CountExactly(states[i].core, s, states[i].peers[s], m.from, m.voteReply);
  }

  lemma VoteIsNew(states: seq<Cluster>, steps: seq<Step>, i: nat, s: nat, m: Message)
    requires Run(states, steps) && i < |states| && Possible(states[i], HandleVoteAnswer(s, m))
    ensures IsCounted(states[i].peers[s], m.voteReply) ==> m.from != s && m.from !in states[i].peers[s].counted
  {
    RunInv(states, steps, i);
    assert MessageOk(states[i].core, m);
  }

  // ----- replication -----

  /** What a leader sends: its full log from the follower's next index on, or its snapshot. */
  ghost function Request(k: Cluster, s: nat, f: nat): Message
    requires s < |k.peers| && s < |k.core.log| && k.peers[s].node.Valid(|k.peers|) && f < |k.peers|
    requires var n := k.peers[s].node;
      n.lastIncluded < |k.core.log[s]| && (n.nextIndex[f] > n.lastIncluded ==> n.nextIndex[f] <= |k.core.log[s]|)
  {
    var n, log := k.peers[s].node, k.core.log[s];
    var next := n.nextIndex[f];
    if next > n.lastIncluded
    then AppendRequest(f, AppendArgs(n.term, s, next - 1, log[next - 1].term, log[next..], n.commitIndex))
    else InstallRequest(f, SnapshotArgs(n.term, s, n.lastIncluded, log[n.lastIncluded].term, n.snapshot))
  }

  lemma FullSuffix(n: Node, full: Log, next: nat)
    requires Compacts(n.log, n.lastIncluded, full) && n.lastIncluded < next <= |full|
    ensures n.log[next - n.lastIncluded..] == full[next..] && n.TermAt(next - 1) == full[next - 1].term
  {
    CompactsAt(n.log, n.lastIncluded, full, next - 1);
    assert n.log[next - n.lastIncluded..] == n.log[1..][next - n.lastIncluded - 1..];
    assert full[next..] == full[n.lastIncluded + 1..][next - n.lastIncluded - 1..];
  }

  /**
   * A leader sends all it has from the next index on, with its commit index, or its snapshot where
   * the next index is compacted away; out of office it sends nothing. It dies exactly if the next
   * index is beyond the end of its log by more than one.
   */
  lemma SendsExactly(states: seq<Cluster>, steps: seq<Step>, i: nat, s: nat, f: nat)
    requires Run(states, steps) && i < |states| && Possible(states[i], Replicate(s, f))
    ensures var k := states[i]; var k' := Next(k, Replicate(s, f)); var n := k.peers[s].node;
      && s < |k.core.log| && n.lastIncluded < |k.core.log[s]|
      && (n.role != Leader ==> k' == k)
      && (n.role == Leader && (n.nextIndex[f] <= n.lastIncluded || n.nextIndex[f] <= |k.core.log[s]|) ==>
            k'.peers == k.peers && k'.net == k.net + {Request(k, s, f)})
      && (n.role == Leader && n.nextIndex[f] > |k.core.log[s]| ==>
            k'.peers == k.peers[s := Reborn(k.peers[s], |k.peers|)] && k'.net == k.net)
  {
    ServerIn(states, steps, i, s);
    var k := states[i];
    var n, full := k.peers[s].node, k.core.log[s];
    CompactsAt(n.log, n.lastIncluded, full, n.lastIncluded);
    if n.lastIncluded < n.nextIndex[f] <= |full| { FullSuffix(n, full, n.nextIndex[f]); }
    assert k.peers[s := k.peers[s]] == k.peers;
  }

  /** What it takes for a follower to accept an append. */
  ghost predicate Fits(n: Node, full: Log, a: AppendArgs) {
    a.term >= n.term && n.lastIncluded <= a.prevLogIndex < |full| && full[a.prevLogIndex].term == a.prevLogTerm
  }

  lemma AppendExactly(n: Node, full: Log, a: AppendArgs)
    requires Compacts(n.log, n.lastIncluded, full)
    ensures var (n', r) := OnAppendEntries(n, a);
      && (r.success <==> Fits(n, full, a))
      && r.term == n'.term == Max(n.term, a.term)
      && (a.term < n.term ==> n' == n)
      && (!r.success ==> n'.commitIndex == n.commitIndex)
  {
    if n.lastIncluded <= a.prevLogIndex < |full| { CompactsAt(n.log, n.lastIncluded, full, a.prevLogIndex); }
    if a.term >= n.term { JudgedMatch(Heard(n, a.term), a); }
  }

  /**
   * An append is accepted if and only if it is not of an older term and its previous entry is in the
   * follower's log, not below the compacted part. The follower then has the leader's log up to the
   * last entry sent; otherwise its log is as it was.
   */
  lemma AppendsExactly(states: seq<Cluster>, steps: seq<Step>, i: nat, f: nat, m: Message) returns (r: AppendReply)
    requires Run(states, steps) && i < |states| && Possible(states[i], HandleAppend(f, m))
    ensures var k := states[i]; var k' := Next(k, HandleAppend(f, m)); var a := m.append; var c := k.core;
      && f < |c.log| && f < |k'.core.log| && a.term in c.reigns
      && k'.net == k.net + {AppendAnswer(a.leader, f, a, r)}
      && (r.success <==> Fits(k.peers[f].node, c.log[f], a))
      && r.term == k'.peers[f].node.term == Max(k.peers[f].node.term, a.term)
      && (r.success ==> Agree(k'.core.log[f], c.LeaderLog(a.term), a.prevLogIndex + |a.entries| + 1))
      && (!r.success ==> k'.core.log == c.log && k'.peers[f].node.commitIndex == k.peers[f].node.commitIndex)
      && (a.term < k.peers[f].node.term ==> k'.peers == k.peers)
  {
    ServerIn(states, steps, i, f);
    RunInv(states, steps, i);
    var k := states[i];
    assert MessageOk(k.core, m);
    r := OnAppendEntries(k.peers[f].node, m.append).1;
    AppendExactly(k.peers[f].node, k.core.log[f], m.append);
    HistoryGrows(k, HandleAppend(f, m));
    GrownByAppend(k.core, f, k.peers[f], |k.peers|, m, k.core.log[f], r);
    if r.success {
      MergeAgrees(k.core.log[f], k.core.LeaderLog(m.append.term), m.append.prevLogIndex + |m.append.entries|);
    }
  }

  /** Where the run of entries of one term that ends in `prev` begins, in the part of the log that is kept. */
  ghost predicate BeginsAt(full: Log, base: nat, prev: nat, start: nat)
    requires base <= prev < |full|
  {
    && base < start <= prev + 1
    && (forall j: nat :: start <= j <= prev ==> full[j].term == full[prev].term)
    && (start - 1 == base || full[start - 1].term != full[prev].term)
  }

  /** What a refusal tells the leader: where to go on if the entry it asked about is compacted away or
      missing, else the term of that entry and where this term begins. */
  ghost predicate Hints(full: Log, base: nat, prev: nat, r: AppendReply) {
    if prev < base then r.conflictTerm == NO_TERM && r.conflictIndex == base + 1
    else if prev >= |full| then r.conflictTerm == NO_TERM && r.conflictIndex == |full|
    else r.conflictTerm == full[prev].term && BeginsAt(full, base, prev, r.conflictIndex)
  }

  lemma HintExactly(n: Node, full: Log, a: AppendArgs)
    requires Compacts(n.log, n.lastIncluded, full) && n.term <= a.term && !OnAppendEntries(n, a).1.success
    ensures Hints(full, n.lastIncluded, a.prevLogIndex, OnAppendEntries(n, a).1)
  {
    var h, prev := Heard(n, a.term), a.prevLogIndex;
    if h.InLog(prev) {
      CompactsAt(h.log, h.lastIncluded, full, prev);
      StartExactly(h, full, prev);
    }
  }

  lemma StartExactly(n: Node, full: Log, prev: nat)
    requires Compacts(n.log, n.lastIncluded, full) && n.InLog(prev)
    ensures BeginsAt(full, n.lastIncluded, prev, ConflictStart(n, prev, n.TermAt(prev)))
  {
    var term := n.TermAt(prev);
    var start := ConflictStart(n, prev, term);
    ConflictStartSpec(n, prev, term);
    CompactsAt(n.log, n.lastIncluded, full, prev);
    if start - 1 > n.lastIncluded { CompactsAt(n.log, n.lastIncluded, full, start - 1); }
    forall j: nat | start <= j <= prev ensures full[j].term == term { CompactsAt(n.log, n.lastIncluded, full, j); }
  }

  /** In every run, the answer to a request that is not of an older term and is not accepted tells the
      leader exactly that. */
  lemma HintsExactly(states: seq<Cluster>, steps: seq<Step>, i: nat, f: nat, m: Message) returns (r: AppendReply)
    requires Run(states, steps) && i < |states| && Possible(states[i], HandleAppend(f, m))
    requires states[i].peers[f].node.term <= m.append.term && f < |states[i].core.log|
    requires !Fits(states[i].peers[f].node, states[i].core.log[f], m.append)
    ensures Next(states[i], HandleAppend(f, m)).net == states[i].net + {AppendAnswer(m.append.leader, f, m.append, r)}
    ensures Hints(states[i].core.log[f], states[i].peers[f].node.lastIncluded, m.append.prevLogIndex, r)
  {
    ServerIn(states, steps, i, f);
    r := OnAppendEntries(states[i].peers[f].node, m.append).1;
    AppendExactly(states[i].peers[f].node, states[i].core.log[f], m.append);
    HintExactly(states[i].peers[f].node, states[i].core.log[f], m.append);
  }

  lemma MergeAgrees(log: Log, leaderLog: Log, m: nat)
    requires m < |leaderLog|
    ensures Agree(C.Merge(log, leaderLog, m), leaderLog, m + 1)
  {
  }

  /**
   * Commit indexes travel: a follower that accepts what a leader sent has, from then on, everything
   * the leader had when it sent it, and counts as committed everything the leader did.
   */
  lemma FollowersLearnCommits(states: seq<Cluster>, steps: seq<Step>, i: nat, j: nat, s: nat, f: nat)
    requires SoundRun(states, steps) && i < j < |states| && Possible(states[i], Replicate(s, f)) && steps[i] == Replicate(s, f)
    requires states[i].peers[s].node.role == Leader && s < |states[i].core.log| && f < |states[j].core.log|
    requires var n := states[i].peers[s].node; n.lastIncluded < n.nextIndex[f] <= |states[i].core.log[s]|
    requires Possible(states[j], HandleAppend(f, Request(states[i], s, f)))
    requires Fits(states[j].peers[f].node, states[j].core.log[f], Request(states[i], s, f).append)
    ensures var k' := Next(states[j], HandleAppend(f, Request(states[i], s, f)));
      && f < |k'.core.log|
      && Agree(k'.core.log[f], states[i].core.log[s], |states[i].core.log[s]|)
      && k'.peers[f].node.commitIndex >= states[i].peers[s].node.commitIndex
  {
    var m := Request(states[i], s, f);
    var r := AppendsExactly(states, steps, j, f, m);
    AppendAccepted(states, steps, j, f, m);
    FollowerCommitsVerified(states, steps, j, f, m);
    LeaderHad(states, steps, i, j, s);
    var log, log' := states[i].core.log[s], states[j].core.LeaderLog(m.append.term);
    AgreeChain(Next(states[j], HandleAppend(f, m)).core.log[f], log', log, |log|, |log|);
  }

  /** What a leader has it keeps, in the history of its term. */
  lemma LeaderHad(states: seq<Cluster>, steps: seq<Step>, i: nat, j: nat, s: nat)
    requires Run(states, steps) && i <= j < |states| && s < |states[i].peers| && states[i].peers[s].node.role == Leader
    ensures var t := states[i].peers[s].node.term; var log := states[i].core.log;
      s < |log| && t in states[j].core.reigns && Agree(states[j].core.LeaderLog(t), log[s], |log[s]|)
  {
    ReignAt(states, steps, i, s);
    RunGrows(states, steps, i, j);
  }

  lemma AppendAccepted(states: seq<Cluster>, steps: seq<Step>, j: nat, f: nat, m: Message)
    requires Run(states, steps) && j < |states| && Possible(states[j], HandleAppend(f, m)) && f < |states[j].core.log|
    requires Fits(states[j].peers[f].node, states[j].core.log[f], m.append)
    ensures OnAppendEntries(states[j].peers[f].node, m.append).1.success
  {
    ServerIn(states, steps, j, f);
    AppendExactly(states[j].peers[f].node, states[j].core.log[f], m.append);
  }

  // ----- replies -----

  lemma {:induction false} HoldersExactly(m: seq<nat>, me: nat, index: nat)
    ensures Holders(m, me, index) == 1 + |set j: nat | j < |m| && j != me && m[j] >= index|
  {
    var q := set j: nat | j < |m| && j != me && m[j] >= index;
    if m != [] {
      var last := |m| - 1;
      HoldersExactly(m[..last], me, index);
      var q' := set j: nat | j < last && j != me && m[..last][j] >= index;
      assert q == if last != me && m[last] >= index then q' + {last} else q';
    }
  }

  /** A majority of the servers, this one included, has the entry as far as matchIndex says, and it is
      of the server's own term. */
  ghost predicate Backed(full: Log, n: Node, s: nat, index: nat) {
    && index < |full| && full[index].term == n.term
    && 2 * (1 + |set j: nat | j < |n.matchIndex| && j != s && n.matchIndex[j] >= index|) > |n.matchIndex|
  }

  lemma BackedIsMajority(full: Log, n: Node, s: nat, index: nat)
    requires Compacts(n.log, n.lastIncluded, full) && n.lastIncluded <= index
    ensures Backed(full, n, s, index) <==> MajorityHeld(n, s, index)
  {
    if index < |full| { CompactsAt(n.log, n.lastIncluded, full, index); }
    HoldersExactly(n.matchIndex, s, index);
  }

  /** The commit index after a count: the largest index that is backed, if beyond it. */
  ghost predicate Counted(full: Log, n: Node, s: nat, commit: nat) {
    && n.commitIndex <= commit
    && (commit == n.commitIndex || Backed(full, n, s, commit))
    && forall j: nat :: n.commitIndex < j && Backed(full, n, s, j) ==> j <= commit
  }

  /** From n to n', a peer was credited with `index`: matchIndex rises to it, if it is higher, nextIndex
      follows, and the commit index is counted anew. */
  ghost predicate Credited(full: Log, n: Node, s: nat, from: nat, index: nat, n': Node)
    requires from < |n.matchIndex| && from < |n.nextIndex|
  {
    && n'.matchIndex == n.matchIndex[from := Max(n.matchIndex[from], index)]
    && n'.nextIndex == (if n.matchIndex[from] < index then n.nextIndex[from := index + 1] else n.nextIndex)
    && (if n.matchIndex[from] < index then Counted(full, n.(matchIndex := n'.matchIndex), s, n'.commitIndex)
        else n'.commitIndex == n.commitIndex)
  }

  lemma MatchedExactly(c: C.Core, s: nat, n: Node, from: nat, index: nat)
    requires C.Inv(c) && s < c.n && NodeOk(c, s, n) && from < c.n && n.lastIncluded <= n.commitIndex
    ensures Matched(n, s, from, index).Lives? && Credited(c.log[s], n, s, from, index, Matched(n, s, from, index).value)
  {
    if n.matchIndex[from] < index {
      var n1 := n.(matchIndex := n.matchIndex[from := index], nextIndex := n.nextIndex[from := index + 1]);
      var n' := n.(matchIndex := n1.matchIndex);
      AdvanceExactly(c, s, n, n1);
      assert forall j: nat :: Backed(c.log[s], n1, s, j) == Backed(c.log[s], n', s, j);
    } else {
      assert n.matchIndex[from := n.matchIndex[from]] == n.matchIndex;
    }
  }

  lemma AdvanceExactly(c: C.Core, s: nat, n: Node, n1: Node)
    requires C.Inv(c) && s < c.n && NodeOk(c, s, n) && n.lastIncluded <= n.commitIndex
    requires n1 == n.(matchIndex := n1.matchIndex, nextIndex := n1.nextIndex) && |n1.matchIndex| == c.n
    ensures CommitFrom(n1, s, n1.LastIndex()).Lives? && Counted(c.log[s], n1, s, CommitFrom(n1, s, n1.LastIndex()).value)
  {
    CompactedSorted(c, s, n);
    CommitFromFinds(n1, s, n1.LastIndex());
    var commit := CommitFrom(n1, s, n1.LastIndex()).value;
    BackedIsMajority(c.log[s], n1, s, commit);
    forall j: nat | n.commitIndex < j && Backed(c.log[s], n1, s, j) ensures j <= commit {
      BackedIsMajority(c.log[s], n1, s, j);
      CommitFromIsLargest(n1, s, n1.LastIndex(), j);
    }
  }

  /**
   * A success that is not of a later term credits the peer with the last entry sent: the commit index
   * then is the largest index of the server's term that matchIndex shows on a majority, if beyond it.
   */
  lemma SuccessesCountExactly(states: seq<Cluster>, steps: seq<Step>, i: nat, s: nat, m: Message)
    requires SoundRun(states, steps) && i < |states| && Possible(states[i], HandleAppendAnswer(s, m))
    requires m.appendReply.term <= states[i].peers[s].node.term && m.appendReply.success
    ensures var k := states[i];
      && s < |k.core.log|
      && Credited(k.core.log[s], k.peers[s].node, s, m.from, m.append.prevLogIndex + |m.append.entries|,
                  Next(k, HandleAppendAnswer(s, m)).peers[s].node)
  {
    CreditedAt(states, steps, i, s, m.from, m.append.prevLogIndex + |m.append.entries|);
    SuccessIsMatch(states[i], s, m);
  }

  lemma SuccessIsMatch(k: Cluster, s: nat, m: Message)
    requires Possible(k, HandleAppendAnswer(s, m)) && m.appendReply.term <= k.peers[s].node.term && m.appendReply.success
    requires Matched(k.peers[s].node, s, m.from, m.append.prevLogIndex + |m.append.entries|).Lives?
    ensures Next(k, HandleAppendAnswer(s, m)).peers[s].node ==
              Matched(k.peers[s].node, s, m.from, m.append.prevLogIndex + |m.append.entries|).value
  {
  }

  lemma CreditedAt(states: seq<Cluster>, steps: seq<Step>, i: nat, s: nat, from: nat, index: nat)
    requires SoundRun(states, steps) && i < |states| && s < |states[i].peers| && from < |states[i].peers|
    ensures var n := states[i].peers[s].node; var log := states[i].core.log;
      && s < |log| && n.Valid(|states[i].peers|)
      && Matched(n, s, from, index).Lives? && Credited(log[s], n, s, from, index, Matched(n, s, from, index).value)
  {
    ServerIn(states, steps, i, s);
    PeerAt(states, steps, i, s);
    MatchedExactly(states[i].core, s, states[i].peers[s].node, from, index);
  }

  /** A reply to InstallSnapshot that is not of a later term credits the peer with the snapshot. */
  lemma SnapshotsCountExactly(states: seq<Cluster>, steps: seq<Step>, i: nat, s: nat, m: Message)
    requires SoundRun(states, steps) && i < |states| && Possible(states[i], HandleInstallAnswer(s, m))
    requires m.term <= states[i].peers[s].node.term
    ensures var k := states[i];
      && s < |k.core.log|
      && Credited(k.core.log[s], k.peers[s].node, s, m.from, m.install.lastIncluded,
                  Next(k, HandleInstallAnswer(s, m)).peers[s].node)
  {
    CreditedAt(states, steps, i, s, m.from, m.install.lastIncluded);
  }

  /**
   * Where a leader goes on after a refusal: where it was told to, or, told a term, after the last entry
   * of that term at or before the one it asked about, if it still has one and that is later.
   */
  ghost predicate GoesOnAt(full: Log, base: nat, prev: nat, r: AppendReply, k: nat) {
    if r.conflictTerm == NO_TERM then k == r.conflictIndex
    else
      && (forall j: nat :: k <= j <= prev && base <= j < |full| ==> full[j].term != r.conflictTerm)
      && (k == r.conflictIndex ||
          (r.conflictIndex < k <= prev + 1 && base < k <= |full| && full[k - 1].term == r.conflictTerm))
  }

  lemma BacktrackExactly(n: Node, full: Log, prev: nat, r: AppendReply)
    requires Compacts(n.log, n.lastIncluded, full) && prev < |full| && r.conflictTerm != NO_TERM
    ensures var o := Backtrack(n, prev, r.conflictIndex, r.conflictTerm);
      o.Lives? && GoesOnAt(full, n.lastIncluded, prev, r, o.value)
  {
    BacktrackSpec(n, prev, r.conflictIndex, r.conflictTerm);
    var k := Backtrack(n, prev, r.conflictIndex, r.conflictTerm).value;
    if k != r.conflictIndex { CompactsAt(n.log, n.lastIncluded, full, k - 1); }
    forall j: nat | k <= j <= prev && n.lastIncluded <= j < |full| ensures full[j].term != r.conflictTerm {
      CompactsAt(n.log, n.lastIncluded, full, j);
    }
  }

  /** In every run, a refusal that is not of a later term and asks about an entry beyond matchIndex moves
      nextIndex there, but not to or below matchIndex; others are ignored. */
  lemma RefusalsBackExactly(states: seq<Cluster>, steps: seq<Step>, i: nat, s: nat, m: Message) returns (k: nat)
    requires Run(states, steps) && i < |states| && Possible(states[i], HandleAppendAnswer(s, m))
    requires m.appendReply.term <= states[i].peers[s].node.term && !m.appendReply.success
    requires s < |states[i].core.log|
    requires m.appendReply.conflictTerm != NO_TERM ==> m.append.prevLogIndex < |states[i].core.log[s]|
    ensures var n := states[i].peers[s].node; var n' := Next(states[i], HandleAppendAnswer(s, m)).peers[s].node;
      && GoesOnAt(states[i].core.log[s], n.lastIncluded, m.append.prevLogIndex, m.appendReply, k)
      && n' == if m.append.prevLogIndex <= n.matchIndex[m.from] then n
               else n.(nextIndex := n.nextIndex[m.from := Max(k, n.matchIndex[m.from] + 1)])
  {
    ServerIn(states, steps, i, s);
    var n, a, r := states[i].peers[s].node, m.append, m.appendReply;
    if r.conflictTerm == NO_TERM {
      k := r.conflictIndex;
    } else {
      BacktrackExactly(n, states[i].core.log[s], a.prevLogIndex, r);
      k := Backtrack(n, a.prevLogIndex, r.conflictIndex, r.conflictTerm).value;
    }
  }

  // ----- the applier -----

  lemma TakeExactly(full: Log, p: Peer)
    requires ServiceOk(full, p) && p.applier.Idle? && Compacts(p.node.log, p.node.lastIncluded, full)
    ensures var n := p.node;
      TakeMessage(n) ==
        if n.snapshotPending then
          Lives((n.(snapshotPending := false),
                 Message(SnapshotMsg(n.lastIncluded, full[n.lastIncluded].term, Commands(full, n.lastIncluded)))))
        else if p.journalIndex < n.commitIndex then
          Lives((n, Message(CommandMsg(p.journalIndex + 1, full[p.journalIndex + 1].command))))
        else Lives((n, Nothing))
  {
    CompactsAt(p.node.log, p.node.lastIncluded, full, p.node.lastIncluded);
    if !p.node.snapshotPending && p.journalIndex < p.node.commitIndex {
      CompactsAt(p.node.log, p.node.lastIncluded, full, p.journalIndex + 1);
    }
  }

  /**
   * An idle applier takes the pending snapshot if there is one, else the first committed command its
   * service has not executed; only if the service has executed all of them does nothing happen.
   */
  lemma AppliesExactly(states: seq<Cluster>, steps: seq<Step>, i: nat, s: nat)
    requires SoundRun(states, steps) && i < |states| && Possible(states[i], Take(s))
    ensures var k := states[i]; var p := k.peers[s]; var k' := Next(k, Take(s)); var n := p.node;
      && s < |k.core.log| && n.commitIndex < |k.core.log[s]| && p.journalIndex <= n.commitIndex
      && n.lastIncluded < |k.core.log[s]|
      && (n.snapshotPending ==>
            k'.peers[s].applier == Holding(SnapshotMsg(n.lastIncluded, k.core.log[s][n.lastIncluded].term,
                                                       Commands(k.core.log[s], n.lastIncluded))))
      && (!n.snapshotPending && p.journalIndex < n.commitIndex ==>
            k'.peers[s].applier == Holding(CommandMsg(p.journalIndex + 1, k.core.log[s][p.journalIndex + 1].command)))
      && (!n.snapshotPending && p.journalIndex == n.commitIndex ==> k' == k)
  {
    TakeAt(states, steps, i, s);
    TakeExactly(states[i].core.log[s], states[i].peers[s]);
  }

  lemma TakeAt(states: seq<Cluster>, steps: seq<Step>, i: nat, s: nat)
    requires SoundRun(states, steps) && i < |states| && s < |states[i].peers|
    ensures var k := states[i];
      && s < |k.core.log| && ServiceOk(k.core.log[s], k.peers[s])
      && Compacts(k.peers[s].node.log, k.peers[s].node.lastIncluded, k.core.log[s])
  {
    ServerIn(states, steps, i, s);
    PeerAt(states, steps, i, s);
  }
}
