/** What holds in runs in which no reply is miscounted: commit indexes, snapshots and everything
    the services are given stay within what a majority has acknowledged. */
module RaftCommit {
  import opened RaftLog
  import opened RaftNode
  import opened RaftCompaction
  import opened RaftCluster
  import opened RaftClusterProof
  import opened RaftChosen
  import C = RaftCore
  import P = RaftCoreProof

  // ----- the invariant -----

  /** The commands a service that has executed `log` up to index m has executed. */
  function Commands(log: Log, m: nat): seq<Command>
    requires m < |log|
  {
    if m == 0 then [] else Commands(log, m - 1) + [log[m].command]
  }

  lemma CommandsAgree(a: Log, b: Log, m: nat)
    requires Agree(a, b, m + 1)
    ensures Commands(a, m) == Commands(b, m)
  {
    if m > 0 {
      AgreeAt(a, b, m + 1, m);
      AgreeShorter(a, b, m + 1, m);
    }
  }

  /** Where the service will be when the message under way is finished. */
  function Target(p: Peer): nat {
    if p.applier.Idle? then p.node.lastApplied else p.applier.msg.index
  }

  /** A message for a service that is at `applied`: the next command, or a state not behind it. */
  ghost predicate MsgOk(full: Log, applied: nat, commitIndex: nat, msg: ApplyMsg)
    requires commitIndex < |full|
  {
    applied <= msg.index <= commitIndex &&
    match msg
    case CommandMsg(i, cmd) => i == applied + 1 && full[i].command == cmd
    case SnapshotMsg(i, _, data) => data == Commands(full, i)
  }

  ghost predicate ServiceOk(full: Log, p: Peer) {
    var n := p.node;
    && n.commitIndex < |full|
    && n.lastIncluded <= n.commitIndex && n.snapshot == Commands(full, n.lastIncluded)
    && n.lastApplied <= n.commitIndex
    && p.journalIndex <= n.commitIndex && p.journal == Commands(full, p.journalIndex)
    && p.journalIndex == (if p.applier.Delivered? then p.applier.msg.index else n.lastApplied)
    && (!p.applier.Idle? ==> MsgOk(full, n.lastApplied, n.commitIndex, p.applier.msg))
    && (!p.applier.Idle? && p.applier.msg.SnapshotMsg? ==> p.applier.msg.index <= n.lastIncluded)
    && (if n.snapshotPending then Target(p) <= n.lastIncluded else n.lastIncluded <= Target(p))
  }

  /** Peer i has acknowledged m in the leader's term, or the credit cannot count towards a commit. */
  ghost predicate CreditOk(c: C.Core, s: nat, n: Node, i: nat, m: nat)
    requires C.Shape(c) && s < c.n
  {
    m <= c.Acked(i, n.term) || m <= n.commitIndex || (m < |c.log[s]| && c.log[s][m].term < n.term)
  }

  ghost predicate LeaderViewOk(c: C.Core, s: nat, n: Node)
    requires C.Shape(c) && s < c.n && n.Valid(c.n)
  {
    forall i: nat :: i < c.n && i != s ==> CreditOk(c, s, n, i, n.matchIndex[i])
  }

  ghost predicate CommitPeer(c: C.Core, s: nat, p: Peer)
    requires C.Shape(c) && s < c.n && p.node.Valid(c.n)
  {
    && (forall log {:trigger ServiceOk(log, p)} :: log == c.log[s] ==>
          ServiceOk(log, p) && Chosen(c, log, p.node.commitIndex, p.node.term))
    && (p.node.role == Leader ==> LeaderViewOk(c, s, p.node))
  }

  lemma OpenPeer(c: C.Core, s: nat, p: Peer)
    requires C.Shape(c) && s < c.n && p.node.Valid(c.n) && CommitPeer(c, s, p)
    ensures ServiceOk(c.log[s], p) && Chosen(c, c.log[s], p.node.commitIndex, p.node.term)
  {
    assert ServiceOk(c.log[s], p);
  }

  ghost predicate CommitMessage(c: C.Core, m: Message) {
    match m
    case AppendRequest(_, a) =>
      && a.term in c.reigns && a.leaderCommit <= a.prevLogIndex + |a.entries|
      && Chosen(c, c.LeaderLog(a.term), a.leaderCommit, a.term)
    case AppendAnswer(_, _, a, r) =>
      a.term in c.reigns && r.term >= a.term && (r.term == a.term && !r.success ==> 1 <= r.conflictIndex <= |c.LeaderLog(a.term)|)
    case InstallRequest(_, a) =>
      && a.term in c.reigns && Chosen(c, c.LeaderLog(a.term), a.lastIncluded, a.term)
      && a.data == Commands(c.LeaderLog(a.term), a.lastIncluded)
    case InstallAnswer(_, from, a, term) =>
      && a.term in c.reigns && Chosen(c, c.LeaderLog(a.term), a.lastIncluded, a.term)
      && term >= a.term && (term == a.term ==> c.Acked(from, a.term) >= a.lastIncluded)
    case _ => true
  }

  ghost predicate CommitsOk(k: Cluster) {
    && C.Shape(k.core) && k.core.n == |k.peers|
    && (forall s: nat :: s < |k.peers| ==> k.peers[s].node.Valid(k.core.n) && CommitPeer(k.core, s, k.peers[s]))
    && (forall m :: m in k.net ==> CommitMessage(k.core, m))
    && (forall i, cmd :: (i, cmd) in k.outputs ==> Agreed(k.core, i, cmd))
  }

  ghost predicate CommitInv(k: Cluster) {
    Inv(k) && CommitsOk(k)
  }

  // ----- what a step of one server leaves alone -----

  lemma CommitFramed(c: C.Core, c': C.Core, s: nat, j: nat, p: Peer)
    requires C.Shape(c) && C.Grows(c, c') && P.Local(c, c', s) && j < c.n && j != s
    requires p.node.Valid(c.n) && CommitPeer(c, j, p)
    ensures CommitPeer(c', j, p)
  {
    OpenPeer(c, j, p);
    ChosenGrows(c, c', c.log[j], c.log[j], p.node.commitIndex, p.node.term, p.node.term);
  }

  lemma CommitMessageGrows(c: C.Core, c': C.Core, m: Message)
    requires C.Grows(c, c') && CommitMessage(c, m)
    ensures CommitMessage(c', m)
  {
    match m
    case AppendRequest(_, a) =>
      LeaderPrefix(c, c', a.term, a.leaderCommit);
      ChosenGrows(c, c', c.LeaderLog(a.term), c'.LeaderLog(a.term), a.leaderCommit, a.term, a.term);
    case InstallRequest(_, a) =>
      LeaderPrefix(c, c', a.term, a.lastIncluded);
      ChosenGrows(c, c', c.LeaderLog(a.term), c'.LeaderLog(a.term), a.lastIncluded, a.term, a.term);
      CommandsAgree(c'.LeaderLog(a.term), c.LeaderLog(a.term), a.lastIncluded);
    case InstallAnswer(_, _, a, _) =>
      LeaderPrefix(c, c', a.term, a.lastIncluded);
      ChosenGrows(c, c', c.LeaderLog(a.term), c'.LeaderLog(a.term), a.lastIncluded, a.term, a.term);
    case _ =>
  }

  lemma LeaderPrefix(c: C.Core, c': C.Core, t: nat, m: nat)
    requires C.Grows(c, c') && t in c.reigns && m < |c.LeaderLog(t)|
    ensures Agree(c'.LeaderLog(t), c.LeaderLog(t), m + 1)
  {
    AgreeGrown(c.LeaderLog(t), c.LeaderLog(t), c'.LeaderLog(t), m + 1);
  }

  lemma CommitPut(k: Cluster, k': Cluster, s: nat, p: Peer, sent: set<Message>, c': C.Core)
    requires CommitsOk(k) && s < |k.peers| && C.Grows(k.core, c') && P.Local(k.core, c', s)
    requires k' == Put(k, s, p, sent, c').(outputs := k'.outputs)
    requires p.node.Valid(c'.n) && CommitPeer(c', s, p)
    requires forall m :: m in sent ==> CommitMessage(c', m)
    requires forall i, cmd :: (i, cmd) in k'.outputs && (i, cmd) !in k.outputs ==> Agreed(c', i, cmd)
    ensures CommitsOk(k')
  {
    forall j: nat | j < |k'.peers| ensures k'.peers[j].node.Valid(k'.core.n) && CommitPeer(k'.core, j, k'.peers[j]) {
      if j != s { CommitFramed(k.core, c', s, j, k.peers[j]); }
    }
    forall m | m in k'.net ensures CommitMessage(k'.core, m) {
      if m !in sent { CommitMessageGrows(k.core, c', m); }
    }
    forall i, cmd | (i, cmd) in k'.outputs ensures Agreed(k'.core, i, cmd) {
      if (i, cmd) in k.outputs { AgreedGrows(k.core, c', i, cmd); }
    }
  }

  /** The service sees no difference between p on `full` and p' on `full'`. */
  predicate SameService(p: Peer, p': Peer) {
    && p'.applier == p.applier && p'.journal == p.journal && p'.journalIndex == p.journalIndex
    && p'.node.lastApplied == p.node.lastApplied && p'.node.lastIncluded == p.node.lastIncluded
    && p'.node.snapshot == p.node.snapshot && p'.node.snapshotPending == p.node.snapshotPending
  }

  lemma ServiceCarries(full: Log, full': Log, p: Peer, p': Peer)
    requires ServiceOk(full, p) && SameService(p, p')
    requires p.node.commitIndex <= p'.node.commitIndex < |full'| && Agree(full', full, p.node.commitIndex + 1)
    ensures ServiceOk(full', p')
  {
    SameCommands(full, full', p.node.commitIndex, p.node.lastIncluded);
    SameCommands(full, full', p.node.commitIndex, p.journalIndex);
    if !p.applier.Idle? {
      MsgCarries(full, full', p.node.lastApplied, p.node.commitIndex, p'.node.commitIndex, p.applier.msg);
    }
  }

  lemma SameCommands(full: Log, full': Log, commitIndex: nat, i: nat)
    requires Agree(full', full, commitIndex + 1) && i <= commitIndex
    ensures Commands(full', i) == Commands(full, i)
  {
    AgreeShorter(full', full, commitIndex + 1, i + 1);
    CommandsAgree(full', full, i);
  }

  lemma MsgCarries(full: Log, full': Log, applied: nat, commitIndex: nat, commitIndex': nat, msg: ApplyMsg)
    requires commitIndex < |full| && MsgOk(full, applied, commitIndex, msg)
    requires commitIndex <= commitIndex' < |full'| && Agree(full', full, commitIndex + 1)
    ensures MsgOk(full', applied, commitIndex', msg)
  {
    AgreeAt(full', full, commitIndex + 1, msg.index);
    SameCommands(full, full', commitIndex, msg.index);
  }

  /** Steps that only touch the term, the vote, the role or the end of the log. */
  lemma Carry(c: C.Core, c': C.Core, s: nat, p: Peer, p': Peer)
    requires C.Grows(c, c') && s < c.n && p.node.Valid(c.n) && p'.node.Valid(c.n) && CommitPeer(c, s, p)
    requires SameService(p, p') && p'.node.commitIndex == p.node.commitIndex && p.node.term <= p'.node.term
    requires Agree(c'.log[s], c.log[s], p.node.commitIndex + 1)
    requires p'.node.role == Leader ==>
      p.node.role == Leader && p'.node.term == p.node.term && c.log[s] <= c'.log[s] &&
      p'.node.matchIndex == p.node.matchIndex
    ensures CommitPeer(c', s, p')
  {
    OpenPeer(c, s, p);
    ServiceCarries(c.log[s], c'.log[s], p, p');
    ChosenGrows(c, c', c.log[s], c'.log[s], p.node.commitIndex, p.node.term, p'.node.term);
  }

  lemma Whole(log: Log, m: nat)
    requires m < |log|
    ensures Agree(log, log, m + 1)
  {
  }

  /** Only the office changed hands: term, vote, role and the record of them. */
  predicate OnlyOffice(n: Node, n': Node) {
    && n' == n.(term := n'.term, votedFor := n'.votedFor, role := n'.role, disk := n'.disk)
    && n.term <= n'.term
    && (n'.role == Leader ==> n.role == Leader && n'.term == n.term)
  }

  lemma OfficeCarries(c: C.Core, c': C.Core, s: nat, p: Peer, p': Peer)
    requires C.Grows(c, c') && s < c.n && p.node.Valid(c.n) && CommitPeer(c, s, p)
    requires c'.log[s] == c.log[s] && OnlyOffice(p.node, p'.node) && SameService(p, p')
    ensures p'.node.Valid(c.n) && CommitPeer(c', s, p')
  {
    OpenPeer(c, s, p);
    Whole(c.log[s], p.node.commitIndex);
    Carry(c, c', s, p, p');
  }

  /** A follower or candidate whose commit index rises to m, which is chosen in `other`. */
  lemma AdvanceCarries(c: C.Core, c': C.Core, s: nat, p: Peer, p': Peer, other: Log, bound: nat)
    requires C.Grows(c, c') && s < c.n && p.node.Valid(c.n) && p'.node.Valid(c.n) && CommitPeer(c, s, p)
    requires SameService(p, p') && p'.node.role != Leader && bound <= p'.node.term
    requires Agree(c'.log[s], c.log[s], p.node.commitIndex + 1)
    requires p.node.commitIndex <= p'.node.commitIndex && Chosen(c, other, p'.node.commitIndex, bound)
    requires Agree(c'.log[s], other, p'.node.commitIndex + 1)
    ensures CommitPeer(c', s, p')
  {
    OpenPeer(c, s, p);
    ServiceCarries(c.log[s], c'.log[s], p, p');
    ChosenGrows(c, c', other, c'.log[s], p'.node.commitIndex, bound, p'.node.term);
  }

  // ----- elections and proposals -----

  lemma TimeoutCommits(k: Cluster, s: nat)
    requires CommitInv(k) && s < |k.peers| && |k.peers[s].node.log| > 0
    ensures CommitsOk(AfterTimeout(k, s))
  {
    var c, p, k' := k.core, k.peers[s], AfterTimeout(k, s);
    StandMoves(c, s);
    OfficeCarries(c, k'.core, s, p, k'.peers[s]);
    var sent := set i | 0 <= i < |k.peers| && i != s :: VoteRequest(i, StartElection(p.node, s).1);
    CommitPut(k, k', s, k'.peers[s], sent, k'.core);
  }

  lemma StandMoves(c: C.Core, s: nat)
    requires C.Inv(c)
    ensures var c' := P.Do(c, C.Stand(s)); C.Grows(c, c') && P.Local(c, c', s) && c'.log == c.log
  {
    P.DoEvolves(c, C.Stand(s));
  }

  lemma VoteCommits(k: Cluster, s: nat, a: VoteArgs)
    requires CommitInv(k) && s < |k.peers| && MessageOk(k.core, VoteRequest(s, a)) && |k.peers[s].node.log| > 0
    ensures CommitsOk(AfterVote(k, s, a))
  {
    var p, k' := k.peers[s], AfterVote(k, s, a);
    assert PeerOk(k.core, s, p);
    VoteMoves(k.core, s, p, a);
    VoteOnlyOffice(p.node, a);
    OfficeCarries(k.core, k'.core, s, p, k'.peers[s]);
    CommitPut(k, k', s, k'.peers[s], {VoteAnswer(a.candidate, s, a.term, OnRequestVote(p.node, a).1)}, k'.core);
  }

  lemma VoteOnlyOffice(n: Node, a: VoteArgs)
    requires |n.log| > 0
    ensures OnlyOffice(n, OnRequestVote(n, a).0)
  {
  }

  lemma VoteMoves(c: C.Core, s: nat, p: Peer, a: VoteArgs)
    requires C.Inv(c) && s < c.n && PeerOk(c, s, p) && MessageOk(c, VoteRequest(s, a))
    ensures var c' := VoteHistory(c, s, a, OnRequestVote(p.node, a).1);
      C.Grows(c, c') && P.Local(c, c', s) && c'.log == c.log
  {
    VotePeerOk(c, s, p, a);
  }

  lemma VoteAnswerCommits(k: Cluster, s: nat, from: nat, asked: nat, r: VoteReply)
    requires CommitInv(k) && s < |k.peers| && MessageOk(k.core, VoteAnswer(s, from, asked, r))
    requires asked == k.peers[s].node.term ==> from !in k.peers[s].counted
    requires |k.peers[s].node.log| > 0
    ensures CommitsOk(AfterVoteAnswer(k, s, from, r))
  {
    var c, p, k' := k.core, k.peers[s], AfterVoteAnswer(k, s, from, r);
    assert PeerOk(c, s, p);
    if Counts(p.node, r) {
      CountMoves(c, s, p, from, asked, r);
      CountCarries(c, k'.core, s, p, k'.peers[s], r);
    } else {
      RaiseMoves(c, s, r.term);
      OfficeCarries(c, k'.core, s, p, k'.peers[s]);
    }
    CommitPut(k, k', s, k'.peers[s], {}, k'.core);
  }

  lemma RaiseMoves(c: C.Core, s: nat, term: nat)
    requires C.Inv(c) && s < c.n
    ensures var c' := Raise(c, s, term);
      C.Grows(c, c') && P.Local(c, c', s) && c'.log == c.log && (c.term[s] >= term ==> c' == c)
  {
    RaiseOk(c, s, term);
  }

  /** A new leader starts from what every peer has acknowledged: nothing. */
  lemma CountCarries(c: C.Core, c': C.Core, s: nat, p: Peer, p': Peer, r: VoteReply)
    requires C.Grows(c, c') && s < c.n && p.node.Valid(c.n) && CommitPeer(c, s, p) && c'.log == c.log
    requires Counts(p.node, r) && p'.node == OnVoteReply(p.node, p.election, c.n, r).0 && SameService(p, p')
    requires Compacts(p.node.log, p.node.lastIncluded, c.log[s])
    ensures p'.node.Valid(c.n) && CommitPeer(c', s, p')
  {
    OpenPeer(c, s, p);
    Whole(c.log[s], p.node.commitIndex);
    ServiceCarries(c.log[s], c'.log[s], p, p');
    ChosenGrows(c, c', c.log[s], c'.log[s], p.node.commitIndex, p.node.term, p'.node.term);
  }

  lemma CountMoves(c: C.Core, s: nat, p: Peer, from: nat, asked: nat, r: VoteReply)
    requires C.Inv(c) && s < c.n && PeerOk(c, s, p)
    requires MessageOk(c, VoteAnswer(s, from, asked, r)) && Counts(p.node, r)
    requires asked == p.node.term ==> from !in p.counted
    ensures var n' := OnVoteReply(p.node, p.election, c.n, r).0;
      var c' := if n'.role == Leader then P.Do(c, C.Win(s, {s} + (p.counted + {from}))) else c;
      C.Grows(c, c') && P.Local(c, c', s) && c'.log == c.log
  {
    CountOk(c, s, p, from, asked, r);
  }

  lemma ClientCommits(k: Cluster, s: nat, command: Command)
    requires CommitInv(k) && s < |k.peers|
    ensures CommitsOk(AfterClient(k, s, command))
  {
    var c, p, k' := k.core, k.peers[s], AfterClient(k, s, command);
    assert PeerOk(c, s, p);
    P.DoEvolves(c, C.Propose(s, command));
    Unmoved(c, s);
    OpenPeer(c, s, p);
    Whole(c.log[s], p.node.commitIndex);
    Carry(c, k'.core, s, p, k'.peers[s]);
    CommitPut(k, k', s, k'.peers[s], {}, k'.core);
  }

  // ----- what a leader sends -----

  lemma SendCommits(c: C.Core, s: nat, p: Peer, i: nat)
    requires C.Inv(c) && s < c.n && NodeOk(c, s, p.node) && CommitPeer(c, s, p) && i < c.n && i != s
    ensures match Send(p.node, s, i)
      case Died => true
      case Lives(Silent) => true
      case Lives(Append(a)) => CommitMessage(c, AppendRequest(i, a))
      case Lives(Install(a)) => CommitMessage(c, InstallRequest(i, a))
  {
    OpenPeer(c, s, p);
    SendOk(c, s, p.node, i);
    if p.node.role == Leader {
      LeaderHasReign(c, s, p.node);
      ChosenShorter(c, c.log[s], p.node.commitIndex, p.node.term, p.node.lastIncluded);
    }
  }

  lemma ReplicateCommits(k: Cluster, s: nat, i: nat)
    requires CommitInv(k) && s < |k.peers| && i < |k.peers| && i != s && k.peers[s].node.Valid(|k.peers|)
    ensures CommitsOk(AfterReplicate(k, s, i))
  {
    var p := k.peers[s];
    assert PeerOk(k.core, s, p);
    SendCommits(k.core, s, p, i);
    Unmoved(k.core, s);
    match Send(p.node, s, i)
    case Died => CrashCommits(k, s);
    case Lives(Silent) =>
    case Lives(Append(a)) => CommitPut(k, AfterReplicate(k, s, i), s, p, {AppendRequest(i, a)}, k.core);
    case Lives(Install(a)) => CommitPut(k, AfterReplicate(k, s, i), s, p, {InstallRequest(i, a)}, k.core);
  }

  // ----- AppendEntries and InstallSnapshot -----

  lemma AppendCommits(k: Cluster, s: nat, a: AppendArgs)
    requires CommitInv(k) && s < |k.peers| && |k.peers[s].node.log| > 0
    requires MessageOk(k.core, AppendRequest(s, a)) && CommitMessage(k.core, AppendRequest(s, a))
    ensures CommitsOk(AfterAppend(k, s, a))
  {
    var p, k' := k.peers[s], AfterAppend(k, s, a);
    assert PeerOk(k.core, s, p);
    AppendPeerCommits(k.core, s, p, a);
    CommitPut(k, k', s, k'.peers[s], {AppendAnswer(a.leader, s, a, OnAppendEntries(p.node, a).1)}, k'.core);
  }

  lemma AppendPeerCommits(c: C.Core, s: nat, p: Peer, a: AppendArgs)
    requires C.Inv(c) && s < c.n && PeerOk(c, s, p) && CommitPeer(c, s, p)
    requires MessageOk(c, AppendRequest(s, a)) && CommitMessage(c, AppendRequest(s, a))
    ensures var (n', r) := OnAppendEntries(p.node, a);
      var c' := AppendHistory(c, s, a, r);
      && C.Grows(c, c') && P.Local(c, c', s) && n'.Valid(c.n) && CommitPeer(c', s, p.(node := n'))
      && CommitMessage(c', AppendAnswer(a.leader, s, a, r))
  {
    AppendPeerOk(c, s, p, a);
    RaiseOk(c, s, a.term);
    if p.node.term <= a.term {
      var c1 := Raise(c, s, a.term);
      HeardCommits(c, s, p, a.term);
      HeardOk(c, s, p.node, a.term);
      CommitMessageGrows(c, c1, AppendRequest(s, a));
      AppendOkGrows(c, c1, a);
      JudgedCommits(c1, s, p.(node := Heard(p.node, a.term)), a);
    }
  }

  lemma HeardCommits(c: C.Core, s: nat, p: Peer, term: nat)
    requires C.Inv(c) && s < c.n && PeerOk(c, s, p) && CommitPeer(c, s, p) && p.node.term <= term
    ensures CommitPeer(Raise(c, s, term), s, p.(node := Heard(p.node, term)))
  {
    RaiseMoves(c, s, term);
    OfficeCarries(c, Raise(c, s, term), s, p, p.(node := Heard(p.node, term)));
  }

  lemma JudgedCommits(c: C.Core, s: nat, p: Peer, a: AppendArgs)
    requires C.Inv(c) && s < c.n && NodeOk(c, s, p.node) && CommitPeer(c, s, p)
    requires p.node.term == a.term && p.node.role != Candidate && AppendOk(c, a) && a.leader != s
    requires CommitMessage(c, AppendRequest(s, a))
    ensures var (n', r) := Judged(p.node, a);
      var c' := JudgedHistory(c, s, a, r);
      n'.Valid(c.n) && CommitPeer(c', s, p.(node := n')) && CommitMessage(c', AppendAnswer(a.leader, s, a, r))
  {
    NotLeaderToo(c, s, p.node, a.term, a.leader);
    if Matches(p.node, a) {
      AcceptedCommits(c, s, p, a, Judged(p.node, a).0, Judged(p.node, a).1);
    } else {
      RejectCommits(c, s, p, a, Judged(p.node, a).1);
    }
  }

  lemma AcceptedCommits(c: C.Core, s: nat, p: Peer, a: AppendArgs, n': Node, r: AppendReply)
    requires C.Inv(c) && s < c.n && NodeOk(c, s, p.node) && CommitPeer(c, s, p)
    requires p.node.term == a.term && p.node.role == Follower && AppendOk(c, a) && Matches(p.node, a)
    requires CommitMessage(c, AppendRequest(s, a)) && (n', r) == Judged(p.node, a)
    ensures var c' := JudgedHistory(c, s, a, r);
      n'.Valid(c.n) && CommitPeer(c', s, p.(node := n')) && CommitMessage(c', AppendAnswer(a.leader, s, a, r))
  {
    JudgedMatch(p.node, a);
    MatchCommits(c, s, p, a);
    MatchAnswered(c, s, p.node, a);
  }

  lemma MatchAnswered(c: C.Core, s: nat, n: Node, a: AppendArgs)
    requires C.Inv(c) && s < c.n && n.term == a.term && c.term[s] == a.term && AppendOk(c, a)
    requires CommitMessage(c, AppendRequest(s, a))
    ensures CommitMessage(P.Do(c, C.Accept(s, a.prevLogIndex + |a.entries|)),
                          AppendAnswer(a.leader, s, a, AppendReply(n.term, true, 0, 0)))
  {
    AcceptOk(c, s, a.prevLogIndex + |a.entries|);
  }

  lemma RejectCommits(c: C.Core, s: nat, p: Peer, a: AppendArgs, r: AppendReply)
    requires C.Inv(c) && s < c.n && NodeOk(c, s, p.node) && CommitPeer(c, s, p)
    requires p.node.term == a.term && AppendOk(c, a) && !Matches(p.node, a) && CommitMessage(c, AppendRequest(s, a))
    requires r == Judged(p.node, a).1
    ensures Judged(p.node, a).0 == p.node && !r.success && CommitMessage(c, AppendAnswer(a.leader, s, a, r))
  {
    JudgedMatch(p.node, a);
    RejectBounds(c, s, p, a);
  }

  lemma MatchCommits(c: C.Core, s: nat, p: Peer, a: AppendArgs)
    requires C.Inv(c) && s < c.n && NodeOk(c, s, p.node) && CommitPeer(c, s, p)
    requires p.node.term == a.term && p.node.role == Follower && AppendOk(c, a) && Matches(p.node, a)
    requires CommitMessage(c, AppendRequest(s, a))
    ensures TakeEntries(p.node, a).Valid(c.n)
    ensures CommitPeer(P.Do(c, C.Accept(s, a.prevLogIndex + |a.entries|)), s, p.(node := TakeEntries(p.node, a)))
  {
    TakeLength(c, s, p.node, a);
    TakeTook(p.node, a);
    TakeCommits(c, s, p, TakeEntries(p.node, a), a);
  }

  /** Nobody else leads the term of a message that reached this peer. */
  lemma NotLeaderToo(c: C.Core, s: nat, n: Node, term: nat, leader: nat)
    requires C.Shape(c) && s < c.n && NodeOk(c, s, n) && n.term == term && InOffice(c, leader, term) && leader != s
    ensures n.role != Leader
  {
  }

  /** What TakeEntries leaves of the node, apart from the entries. */
  ghost predicate Took(n: Node, n': Node, a: AppendArgs) {
    && n' == n.(log := n'.log, disk := n'.disk, commitIndex := n'.commitIndex)
    && |n'.log| > 0 && n'.commitIndex == Max(n.commitIndex, a.leaderCommit)
  }

  lemma TakeCommits(c: C.Core, s: nat, p: Peer, n': Node, a: AppendArgs)
    requires C.Inv(c) && s < c.n && p.node.Valid(c.n) && p.node.term == c.term[s] && CommitPeer(c, s, p)
    requires p.node.term == a.term && p.node.role == Follower && Took(p.node, n', a)
    requires CommitMessage(c, AppendRequest(s, a)) && a.prevLogIndex + |a.entries| < |c.LeaderLog(a.term)|
    ensures CommitPeer(P.Do(c, C.Accept(s, a.prevLogIndex + |a.entries|)), s, p.(node := n'))
  {
    var m := a.prevLogIndex + |a.entries|;
    AcceptChosen(c, s, p, m);
    TakenCarries(c, P.Do(c, C.Accept(s, m)), s, p, n', a);
  }

  /** Taking over entries from the current leader keeps a prefix that is chosen. */
  lemma AcceptChosen(c: C.Core, s: nat, p: Peer, m: nat)
    requires C.Inv(c) && s < c.n && p.node.Valid(c.n) && p.node.term == c.term[s] && CommitPeer(c, s, p)
    requires p.node.term in c.reigns && m < |c.LeaderLog(p.node.term)|
    ensures var c' := P.Do(c, C.Accept(s, m));
      && C.Grows(c, c') && c'.log[s] == C.Merge(c.log[s], c.LeaderLog(p.node.term), m)
      && Agree(c'.log[s], c.log[s], p.node.commitIndex + 1)
  {
    AcceptMoves(c, s, m);
    AcceptKeepsChosen(c, s, p, m);
  }

  lemma AcceptMoves(c: C.Core, s: nat, m: nat)
    requires C.Inv(c) && s < c.n && c.term[s] in c.reigns && m < |c.LeaderLog(c.term[s])|
    ensures var c' := P.Do(c, C.Accept(s, m));
      && C.Grows(c, c') && P.Local(c, c', s)
      && c'.log == c.log[s := C.Merge(c.log[s], c.LeaderLog(c.term[s]), m)]
      && c'.term == c.term && c'.reigns == c.reigns && c'.Acked(s, c.term[s]) >= m
      && c.log[s][..1] == [ROOT]
  {
    AcceptOk(c, s, m);
  }

  lemma AcceptKeepsChosen(c: C.Core, s: nat, p: Peer, m: nat)
    requires C.Inv(c) && s < c.n && p.node.Valid(c.n) && p.node.term == c.term[s] && CommitPeer(c, s, p)
    requires p.node.term in c.reigns && m < |c.LeaderLog(p.node.term)|
    ensures Agree(C.Merge(c.log[s], c.LeaderLog(p.node.term), m), c.log[s], p.node.commitIndex + 1)
  {
    OpenPeer(c, s, p);
    ChosenSurvivesMerge(c, c.log[s], p.node.commitIndex, p.node.term, p.node.term, m);
  }

  /** The follower's commit index stays within the part verified against the leader. */
  lemma TakenCarries(c: C.Core, c': C.Core, s: nat, p: Peer, n': Node, a: AppendArgs)
    requires C.Grows(c, c') && s < c.n && p.node.Valid(c.n) && CommitPeer(c, s, p)
    requires p.node.term == a.term && p.node.role == Follower && Took(p.node, n', a)
    requires CommitMessage(c, AppendRequest(s, a)) && a.prevLogIndex + |a.entries| < |c.LeaderLog(a.term)|
    requires c'.log[s] == C.Merge(c.log[s], c.LeaderLog(a.term), a.prevLogIndex + |a.entries|)
    requires Agree(c'.log[s], c.log[s], p.node.commitIndex + 1)
    ensures CommitPeer(c', s, p.(node := n'))
  {
    if a.leaderCommit > p.node.commitIndex {
      var m := a.prevLogIndex + |a.entries|;
      P.MergeTakes(c.log[s], c.LeaderLog(a.term), m);
      AgreeShorter(c'.log[s], c.LeaderLog(a.term), m + 1, a.leaderCommit + 1);
      AdvanceCarries(c, c', s, p, p.(node := n'), c.LeaderLog(a.term), a.term);
    } else {
      Carry(c, c', s, p, p.(node := n'));
    }
  }

  lemma TakeLength(c: C.Core, s: nat, n: Node, a: AppendArgs)
    requires C.Inv(c) && s < c.n && NodeOk(c, s, n) && AppendOk(c, a) && Matches(n, a)
    ensures n.lastIncluded + |TakeEntries(n, a).log| > a.prevLogIndex + |a.entries|
  {
    TakeMerges(c, s, n, a);
  }

  lemma TakeTook(n: Node, a: AppendArgs)
    requires n.InLog(a.prevLogIndex) && |n.log| > 0 && a.leaderCommit < n.lastIncluded + |TakeEntries(n, a).log|
    ensures Took(n, TakeEntries(n, a), a)
  {
  }

  /** A rejection names an index within reach of the leader's log. */
  lemma RejectBounds(c: C.Core, s: nat, p: Peer, a: AppendArgs)
    requires C.Inv(c) && s < c.n && NodeOk(c, s, p.node) && CommitPeer(c, s, p)
    requires p.node.term == a.term && AppendOk(c, a) && !Matches(p.node, a)
    ensures 1 <= Judged(p.node, a).1.conflictIndex <= |c.LeaderLog(a.term)|
  {
    OpenPeer(c, s, p);
    var n := p.node;
    ChosenShorter(c, c.log[s], n.commitIndex, n.term, n.lastIncluded);
    ChosenInLeader(c, c.log[s], n.lastIncluded, n.term, a.term);
    if n.InLog(a.prevLogIndex) {
      ConflictStartSpec(n, a.prevLogIndex, n.TermAt(a.prevLogIndex));
    }
  }

  /** The scan in the follower covers entries of the conflicting term only, and all of them that are kept. */
  lemma {:induction false} ConflictStartSpec(n: Node, i: nat, term: int)
    requires n.InLog(i) && n.TermAt(i) == term
    decreases i
    ensures var start := ConflictStart(n, i, term);
      && n.lastIncluded < start <= i + 1
      && (i > n.lastIncluded ==> start <= i)
      && (forall j: nat :: start <= j <= i ==> n.InLog(j) && n.TermAt(j) == term)
      && (start - 1 == n.lastIncluded || n.TermAt(start - 1) != term)
  {
    if i > n.lastIncluded {
      if n.TermAt(i - 1) == term {
        ConflictStartSpec(n, i - 1, term);
      }
    }
  }

  /** The scan in the leader stops at the last entry of the term, or has seen none. */
  lemma {:induction false} BacktrackSpec(n: Node, j: int, floor: nat, term: int)
    requires j < n.lastIncluded + |n.log|
    decreases j + 1
    ensures Backtrack(n, j, floor, term).Lives?
    ensures var k := Backtrack(n, j, floor, term).value;
      && (forall i: nat :: k <= i <= j && n.lastIncluded <= i ==> n.TermAt(i) != term)
      && (k == floor || (floor < k && n.lastIncluded < k <= j + 1 && n.TermAt(k - 1) == term))
  {
    if j >= n.lastIncluded && j >= floor && n.TermAt(j) != term { BacktrackSpec(n, j - 1, floor, term); }
  }

  lemma InstallCommits(k: Cluster, s: nat, a: SnapshotArgs)
    requires CommitInv(k) && s < |k.peers| && |k.peers[s].node.log| > 0
    requires MessageOk(k.core, InstallRequest(s, a)) && CommitMessage(k.core, InstallRequest(s, a))
    ensures CommitsOk(AfterInstall(k, s, a))
  {
    var p, k' := k.peers[s], AfterInstall(k, s, a);
    assert PeerOk(k.core, s, p);
    InstallPeerCommits(k.core, s, p, a);
    CommitPut(k, k', s, k'.peers[s], {InstallAnswer(a.leader, s, a, OnInstallSnapshot(p.node, a).1)}, k'.core);
  }

  lemma InstallPeerCommits(c: C.Core, s: nat, p: Peer, a: SnapshotArgs)
    requires C.Inv(c) && s < c.n && PeerOk(c, s, p) && CommitPeer(c, s, p)
    requires MessageOk(c, InstallRequest(s, a)) && CommitMessage(c, InstallRequest(s, a))
    ensures var (n', term) := OnInstallSnapshot(p.node, a);
      var c' := InstallHistory(c, s, p.node, a);
      && C.Grows(c, c') && P.Local(c, c', s) && n'.Valid(c.n) && CommitPeer(c', s, p.(node := n'))
      && CommitMessage(c', InstallAnswer(a.leader, s, a, term))
  {
    InstallMoves(c, s, p, a);
    CommitMessageGrows(c, InstallHistory(c, s, p.node, a), InstallRequest(s, a));
    if p.node.term <= a.term {
      var c1 := Raise(c, s, a.term);
      var p1 := p.(node := HeardInstall(p.node, a.term));
      RaiseMoves(c, s, a.term);
      OfficeCarries(c, c1, s, p, p1);
      RaisedInstall(c, s, p, a);
      InstalledCommits(c1, s, p1, a);
    }
  }

  lemma InstallMoves(c: C.Core, s: nat, p: Peer, a: SnapshotArgs)
    requires C.Inv(c) && s < c.n && PeerOk(c, s, p) && MessageOk(c, InstallRequest(s, a))
    ensures var c' := InstallHistory(c, s, p.node, a);
      C.Grows(c, c') && P.Local(c, c', s) && OnInstallSnapshot(p.node, a).0.Valid(c.n)
  {
    InstallPeerOk(c, s, p, a);
  }

  lemma RaisedInstall(c: C.Core, s: nat, p: Peer, a: SnapshotArgs)
    requires C.Inv(c) && s < c.n && PeerOk(c, s, p) && p.node.term <= a.term
    requires MessageOk(c, InstallRequest(s, a)) && CommitMessage(c, InstallRequest(s, a))
    ensures var c1 := Raise(c, s, a.term);
      && C.Inv(c1) && PeerOk(c1, s, p.(node := HeardInstall(p.node, a.term)))
      && InstallOk(c1, a) && CommitMessage(c1, InstallRequest(s, a))
  {
    RaiseOk(c, s, a.term);
    HeardInstallOk(c, s, p, a.term);
    CommitMessageGrows(c, Raise(c, s, a.term), InstallRequest(s, a));
  }

  lemma InstalledCommits(c: C.Core, s: nat, p: Peer, a: SnapshotArgs)
    requires C.Inv(c) && s < c.n && PeerOk(c, s, p) && CommitPeer(c, s, p) && p.node.term == a.term
    requires InstallOk(c, a) && a.leader != s && CommitMessage(c, InstallRequest(s, a))
    ensures var c' := InstalledHistory(c, s, p.node, a);
      CommitPeer(c', s, p.(node := Installed(p.node, a))) && c'.Acked(s, a.term) >= a.lastIncluded
  {
    NotLeaderToo(c, s, p.node, a.term, a.leader);
    AcceptMoves(c, s, a.lastIncluded);
    if p.node.lastIncluded < a.lastIncluded {
      AcceptChosen(c, s, p, a.lastIncluded);
      AdoptTook(p.node, a);
      AdoptCarries(c, P.Do(c, C.Accept(s, a.lastIncluded)), s, p, Installed(p.node, a), a);
    } else {
      OldSnapshotCovered(c, s, p, a);
      AcceptChosen(c, s, p, a.lastIncluded);
      Carry(c, P.Do(c, C.Accept(s, a.lastIncluded)), s, p, p);
    }
  }

  /** A snapshot older than the peer's own stands for entries the peer has. */
  lemma OldSnapshotCovered(c: C.Core, s: nat, p: Peer, a: SnapshotArgs)
    requires C.Inv(c) && s < c.n && p.node.Valid(c.n) && p.node.term == c.term[s] && CommitPeer(c, s, p)
    requires p.node.term == a.term && a.term in c.reigns && a.lastIncluded <= p.node.lastIncluded
    ensures Covered(c, s, a)
  {
    OpenPeer(c, s, p);
    ChosenShorter(c, c.log[s], p.node.commitIndex, p.node.term, a.lastIncluded);
    RootFirst(c, s);
    ChosenInLeader(c, c.log[s], a.lastIncluded, p.node.term, a.term);
  }

  lemma RootFirst(c: C.Core, s: nat)
    requires C.Inv(c) && s < c.n
    ensures |c.log[s]| > 0 && c.log[s][0] == ROOT
  {
  }

  /** What adopting a snapshot leaves of the node. */
  ghost predicate Adopted(n: Node, n': Node, a: SnapshotArgs) {
    && n' == n.(log := n'.log, disk := n'.disk, lastIncluded := a.lastIncluded, snapshot := a.data,
                commitIndex := n'.commitIndex, snapshotPending := n'.snapshotPending)
    && (if n.lastApplied < a.lastIncluded
        then n'.commitIndex == Max(a.lastIncluded, n.commitIndex) && n'.snapshotPending
        else n'.commitIndex == n.commitIndex && n'.snapshotPending == n.snapshotPending)
  }

  lemma AdoptTook(n: Node, a: SnapshotArgs)
    requires |n.log| > 0 && n.lastIncluded < a.lastIncluded
    ensures |Installed(n, a).log| > 0 && Adopted(n, Installed(n, a), a)
  {
  }

  lemma AdoptCarries(c: C.Core, c': C.Core, s: nat, p: Peer, n': Node, a: SnapshotArgs)
    requires C.Grows(c, c') && s < c.n && p.node.Valid(c.n) && n'.Valid(c.n) && CommitPeer(c, s, p)
    requires p.node.term == a.term && p.node.role != Leader && Adopted(p.node, n', a)
    requires p.node.lastIncluded < a.lastIncluded && CommitMessage(c, InstallRequest(s, a))
    requires c'.log[s] == C.Merge(c.log[s], c.LeaderLog(a.term), a.lastIncluded)
    requires Agree(c'.log[s], c.log[s], p.node.commitIndex + 1)
    ensures CommitPeer(c', s, p.(node := n'))
  {
    OpenPeer(c, s, p);
    var full, full', leaderLog := c.log[s], c'.log[s], c.LeaderLog(a.term);
    P.MergeTakes(full, leaderLog, a.lastIncluded);
    CommandsAgree(full', leaderLog, a.lastIncluded);
    AdoptService(full, full', p, n', a);
    if n'.commitIndex == p.node.commitIndex {
      ChosenGrows(c, c', full, full', n'.commitIndex, a.term, a.term);
    } else {
      ChosenGrows(c, c', leaderLog, full', n'.commitIndex, a.term, a.term);
    }
  }

  lemma AdoptService(full: Log, full': Log, p: Peer, n': Node, a: SnapshotArgs)
    requires ServiceOk(full, p) && Adopted(p.node, n', a) && p.node.lastIncluded < a.lastIncluded
    requires Agree(full', full, p.node.commitIndex + 1)
    requires a.lastIncluded < |full'| && a.data == Commands(full', a.lastIncluded)
    ensures ServiceOk(full', p.(node := n'))
  {
    ServiceCarries(full, full', p, p.(node := p.node.(commitIndex := n'.commitIndex)));
    AdoptPending(full', p.(node := p.node.(commitIndex := n'.commitIndex)), n', a);
  }

  lemma AdoptPending(full: Log, p: Peer, n': Node, a: SnapshotArgs)
    requires ServiceOk(full, p) && p.node.lastIncluded < a.lastIncluded <= p.node.commitIndex
    requires n' == p.node.(log := n'.log, disk := n'.disk, lastIncluded := a.lastIncluded, snapshot := a.data,
                           snapshotPending := n'.snapshotPending)
    requires if p.node.lastApplied < a.lastIncluded then n'.snapshotPending
             else n'.snapshotPending == p.node.snapshotPending
    requires a.data == Commands(full, a.lastIncluded)
    ensures ServiceOk(full, p.(node := n'))
  {
  }

  // ----- replies -----

  lemma {:induction false} HoldersAre(matchIndex: seq<nat>, me: nat, index: nat) returns (q: set<nat>)
    ensures |q| + 1 == Holders(matchIndex, me, index) && me !in q
    ensures forall j :: j in q ==> j < |matchIndex| && matchIndex[j] >= index
  {
    if matchIndex == [] {
      q := {};
    } else {
      var last := |matchIndex| - 1;
      q := HoldersAre(matchIndex[..last], me, index);
      if last != me && matchIndex[last] >= index {
        q := q + {last};
      }
    }
  }

  /** A peer credited with an entry of the leader's term beyond its commit index has acknowledged it. */
  lemma OwnCreditAcked(c: C.Core, s: nat, n: Node, i: nat, m: nat, index: nat)
    requires C.Inv(c) && s < c.n && CreditOk(c, s, n, i, m)
    requires n.commitIndex < index <= m && index < |c.log[s]| && c.log[s][index].term == n.term
    ensures index <= c.Acked(i, n.term)
  {
    P.LogSorted(c, c.log[s]);
    assert index < m < |c.log[s]| ==> NotAfter(c.log[s], index, m);
  }

  /** An entry of the leader's term that matchIndex puts on a majority is committed. */
  lemma MajorityCommits(c: C.Core, s: nat, n: Node, index: nat)
    requires C.Inv(c) && s < c.n && NodeOk(c, s, n) && n.role == Leader && LeaderViewOk(c, s, n)
    requires index > n.commitIndex && n.InLog(index) && n.TermAt(index) == n.term
    requires Holders(n.matchIndex, s, index) > |n.matchIndex| / 2
    ensures Chosen(c, c.log[s], index, n.term)
  {
    LeaderHasReign(c, s, n);
    CompactsAt(n.log, n.lastIncluded, c.log[s], index);
    var q := HoldersAre(n.matchIndex, s, index);
    assert C.ElectedOk(c, n.term);
    assert |q + {s}| == |q| + 1;
    forall j: nat | j in q ensures j < c.n && c.Acked(j, n.term) >= index {
      OwnCreditAcked(c, s, n, j, n.matchIndex[j], index);
    }
    assert AckedBy(c, n.term, index, q + {s});
    assert ChosenBy(c, c.log[s], index, n.term, n.term, index);
  }

  /** The scan stops at the commit index, or at an entry of this term that a majority holds. */
  lemma {:induction false} CommitFromFinds(n: Node, me: nat, index: nat)
    requires n.lastIncluded <= n.commitIndex && index < n.lastIncluded + |n.log|
    decreases index
    ensures var o := CommitFrom(n, me, index);
      && o.Lives? && n.commitIndex <= o.value
      && (o.value == n.commitIndex ||
          (n.InLog(o.value) && n.TermAt(o.value) == n.term && Holders(n.matchIndex, me, o.value) > |n.matchIndex| / 2))
  {
    if index > n.commitIndex && n.TermAt(index) == n.term && Holders(n.matchIndex, me, index) <= |n.matchIndex| / 2 {
      CommitFromFinds(n, me, index - 1);
    }
  }

  lemma CommitFromChosen(c: C.Core, s: nat, n: Node)
    requires C.Inv(c) && s < c.n && NodeOk(c, s, n) && n.role == Leader && LeaderViewOk(c, s, n)
    requires n.lastIncluded <= n.commitIndex && Chosen(c, c.log[s], n.commitIndex, n.term)
    ensures var o := CommitFrom(n, s, n.LastIndex());
      o.Lives? && n.commitIndex <= o.value && Chosen(c, c.log[s], o.value, n.term)
  {
    CommitFromFinds(n, s, n.LastIndex());
    var index := CommitFrom(n, s, n.LastIndex()).value;
    if index != n.commitIndex {
      MajorityCommits(c, s, n, index);
    }
  }

  lemma MatchedCommits(c: C.Core, s: nat, p: Peer, i: nat, index: nat)
    requires C.Inv(c) && s < c.n && NodeOk(c, s, p.node) && p.node.role == Leader && CommitPeer(c, s, p)
    requires i < c.n && i != s && CreditOk(c, s, p.node, i, index)
    ensures var o := Matched(p.node, s, i, index);
      o.Lives? && o.value.Valid(c.n) && CommitPeer(c, s, p.(node := o.value))
  {
    if p.node.matchIndex[i] < index {
      ProgressCommits(c, s, p, p.node.(matchIndex := p.node.matchIndex[i := index],
                                       nextIndex := p.node.nextIndex[i := index + 1]));
    }
  }

  lemma ProgressCommits(c: C.Core, s: nat, p: Peer, n: Node)
    requires C.Inv(c) && s < c.n && p.node.Valid(c.n) && CommitPeer(c, s, p)
    requires NodeOk(c, s, n) && n.role == Leader && LeaderViewOk(c, s, n)
    requires n == p.node.(matchIndex := n.matchIndex, nextIndex := n.nextIndex)
    ensures var o := AdvanceCommit(n, s);
      o.Lives? && o.value.Valid(c.n) && CommitPeer(c, s, p.(node := o.value))
  {
    OpenPeer(c, s, p);
    CommitFromChosen(c, s, n);
    AdvanceCarriesLeader(c, s, p, n.(commitIndex := CommitFrom(n, s, n.LastIndex()).value));
  }

  lemma AdvanceCarriesLeader(c: C.Core, s: nat, p: Peer, n': Node)
    requires C.Shape(c) && s < c.n && p.node.Valid(c.n) && n'.Valid(c.n) && CommitPeer(c, s, p)
    requires n' == p.node.(matchIndex := n'.matchIndex, nextIndex := n'.nextIndex, commitIndex := n'.commitIndex)
    requires p.node.commitIndex <= n'.commitIndex && Chosen(c, c.log[s], n'.commitIndex, n'.term)
    requires LeaderViewOk(c, s, n')
    ensures CommitPeer(c, s, p.(node := n'))
  {
    OpenPeer(c, s, p);
    Whole(c.log[s], p.node.commitIndex);
    ServiceCarries(c.log[s], c.log[s], p, p.(node := n'));
  }

  /** A credit that makes up no majority commits nothing. */
  lemma NothingCommits(n: Node, s: nat)
    requires |n.log| > 0 && n.lastIncluded <= n.commitIndex && NoMajority(n, s)
    ensures AdvanceCommit(n, s) == Lives(n)
  {
    CommitFromFinds(n, s, n.LastIndex());
    assert !(MajorityHeld(n, s, CommitFrom(n, s, n.LastIndex()).value) && n.commitIndex < CommitFrom(n, s, n.LastIndex()).value);
  }

  /** A guard on the compacted log is a credit on the full one. */
  lemma GuardCredits(c: C.Core, s: nat, n: Node, i: nat, index: nat)
    requires C.Shape(c) && s < c.n && NodeOk(c, s, n)
    requires index <= n.commitIndex || (n.InLog(index) && n.TermAt(index) < n.term)
    ensures CreditOk(c, s, n, i, index)
  {
    if index > n.commitIndex { CompactsAt(n.log, n.lastIncluded, c.log[s], index); }
  }

  /** A stale snapshot reply credits a leader's peer with entries of older terms only. */
  lemma SnapshotCredits(c: C.Core, s: nat, n: Node, i: nat, a: SnapshotArgs)
    requires C.Inv(c) && s < c.n && NodeOk(c, s, n) && n.role == Leader
    requires a.term in c.reigns && a.term <= n.term && Chosen(c, c.LeaderLog(a.term), a.lastIncluded, a.term)
    requires a.term == n.term ==> a.lastIncluded <= c.Acked(i, n.term)
    ensures CreditOk(c, s, n, i, a.lastIncluded)
  {
    LeaderHasReign(c, s, n);
    if a.term < n.term { ChosenIsOlder(c, a.term, n.term, a.lastIncluded); }
  }

  /** What is chosen in one leader's log is, in a later leader's, of no later term than the first. */
  lemma ChosenIsOlder(c: C.Core, t: nat, u: nat, m: nat)
    requires C.Inv(c) && t in c.reigns && u in c.reigns && t <= u && Chosen(c, c.LeaderLog(t), m, t)
    ensures m < |c.LeaderLog(u)| && c.LeaderLog(u)[m].term <= t
  {
    var log := c.LeaderLog(t);
    assert C.ReignOk(c, t);
    ChosenInLeader(c, log, m, t, u);
    AgreeAt(log, c.LeaderLog(u), m + 1, m);
    assert m < |log| - 1 ==> NotAfter(log, m, |log| - 1);
  }

  lemma MovesNothingStill(n: Node, s: nat, i: nat, index: nat, n': Node)
    requires i < |n.matchIndex| && MovesNothing(n, s, i, index)
    requires n' == n.(matchIndex := n.matchIndex[i := index], nextIndex := n'.nextIndex)
    ensures NoMajority(n', s)
  {
    forall j: nat | n'.commitIndex < j ensures !MajorityHeld(n', s, j) {
      assert !MajorityHeld(n.(matchIndex := n.matchIndex[i := index]), s, j);
    }
  }

  /** A credit that is safe keeps the invariant, and one that changes nothing does. */
  lemma CreditCommits(c: C.Core, s: nat, p: Peer, i: nat, index: nat)
    requires C.Inv(c) && s < c.n && PeerOk(c, s, p) && CommitPeer(c, s, p) && i < c.n && i != s
    requires p.node.matchIndex[i] < index ==>
      if p.node.role == Leader then CreditOk(c, s, p.node, i, index) else MovesNothing(p.node, s, i, index)
    ensures var o := Matched(p.node, s, i, index);
      o.Lives? && o.value.Valid(c.n) && CommitPeer(c, s, p.(node := o.value))
  {
    if p.node.matchIndex[i] < index {
      if p.node.role == Leader {
        MatchedCommits(c, s, p, i, index);
      } else {
        var n := p.node.(matchIndex := p.node.matchIndex[i := index], nextIndex := p.node.nextIndex[i := index + 1]);
        OpenPeer(c, s, p);
        MovesNothingStill(p.node, s, i, index, n);
        NothingCommits(n, s);
        HintCarries(c, s, p, n);
      }
    }
  }

  /** Indexes that only guide a leader, or that a server out of office happens to hold. */
  lemma HintCarries(c: C.Core, s: nat, p: Peer, n: Node)
    requires C.Shape(c) && s < c.n && p.node.Valid(c.n) && n.Valid(c.n) && CommitPeer(c, s, p)
    requires n == p.node.(matchIndex := n.matchIndex, nextIndex := n.nextIndex)
    requires n.role == Leader ==> n.matchIndex == p.node.matchIndex
    ensures CommitPeer(c, s, p.(node := n))
  {
    OpenPeer(c, s, p);
    Whole(c.log[s], p.node.commitIndex);
    ServiceCarries(c.log[s], c.log[s], p, p.(node := n));
  }

  lemma AppendAnswerPeer(c: C.Core, s: nat, p: Peer, from: nat, a: AppendArgs, r: AppendReply)
    requires C.Inv(c) && s < c.n && PeerOk(c, s, p) && CommitPeer(c, s, p) && r.term <= p.node.term
    requires MessageOk(c, AppendAnswer(s, from, a, r))
    requires r.success && p.node.matchIndex[from] < a.prevLogIndex + |a.entries| ==>
      SafeCredit(p.node, s, from, a.term, a.prevLogIndex + |a.entries|)
    ensures var o := OnAppendReply(p.node, s, from, a, r);
      o.Lives? ==> o.value.Valid(c.n) && CommitPeer(c, s, p.(node := o.value))
  {
    var index := a.prevLogIndex + |a.entries|;
    if r.success {
      if p.node.matchIndex[from] < index && p.node.role == Leader && a.term != p.node.term {
        GuardCredits(c, s, p.node, from, index);
      }
      CreditCommits(c, s, p, from, index);
    } else if OnAppendReply(p.node, s, from, a, r).Lives? {
      HintCarries(c, s, p, OnAppendReply(p.node, s, from, a, r).value);
    }
  }

  /** A reply that is not of a later term changes its server only. */
  lemma AnswerCommits(k: Cluster, s: nat, o: Outcome<Node>)
    requires CommitInv(k) && s < |k.peers|
    requires o.Lives? ==> o.value.Valid(k.core.n) && CommitPeer(k.core, s, k.peers[s].(node := o.value))
    ensures CommitsOk(Put(k, s, Survive(k.peers[s], |k.peers|, o), {}, k.core))
  {
    if o.Died? {
      CrashCommits(k, s);
    } else {
      Unmoved(k.core, s);
      var p' := k.peers[s].(node := o.value);
      CommitPut(k, Put(k, s, p', {}, k.core), s, p', {}, k.core);
    }
  }

  /** A reply of a later term ends the office. */
  lemma LaterTermCommits(k: Cluster, s: nat, term: nat)
    requires CommitInv(k) && s < |k.peers| && k.peers[s].node.term < term
    ensures CommitsOk(Put(k, s, k.peers[s].(node := BecomeFollower(k.peers[s].node, term)), {}, Raise(k.core, s, term)))
  {
    var p, c' := k.peers[s], Raise(k.core, s, term);
    var p' := p.(node := BecomeFollower(p.node, term));
    assert PeerOk(k.core, s, p) && CommitPeer(k.core, s, p);
    RaiseMoves(k.core, s, term);
    OfficeCarries(k.core, c', s, p, p');
    CommitPut(k, Put(k, s, p', {}, c'), s, p', {}, c');
  }

  lemma AppendAnswerCommits(k: Cluster, s: nat, m: Message)
    requires CommitInv(k) && Possible(k, HandleAppendAnswer(s, m)) && SoundReply(k, HandleAppendAnswer(s, m))
    ensures CommitsOk(AfterAppendAnswer(k, s, m.from, m.append, m.appendReply))
  {
    var p := k.peers[s];
    assert PeerOk(k.core, s, p);
    if m.appendReply.term > p.node.term {
      LaterTermCommits(k, s, m.appendReply.term);
    } else {
      RaiseMoves(k.core, s, m.appendReply.term);
      AppendAnswerOutcome(k, s, m);
      AnswerCommits(k, s, OnAppendReply(p.node, s, m.from, m.append, m.appendReply));
    }
  }

  lemma AppendAnswerOutcome(k: Cluster, s: nat, m: Message)
    requires CommitInv(k) && Possible(k, HandleAppendAnswer(s, m)) && SoundReply(k, HandleAppendAnswer(s, m))
    requires m.appendReply.term <= k.peers[s].node.term
    ensures var o := OnAppendReply(k.peers[s].node, s, m.from, m.append, m.appendReply);
      o.Lives? ==> o.value.Valid(k.core.n) && CommitPeer(k.core, s, k.peers[s].(node := o.value))
  {
    assert PeerOk(k.core, s, k.peers[s]) && MessageOk(k.core, m) && CommitPeer(k.core, s, k.peers[s]);
    AppendAnswerPeer(k.core, s, k.peers[s], m.from, m.append, m.appendReply);
  }

  lemma InstallAnswerCommits(k: Cluster, s: nat, m: Message)
    requires CommitInv(k) && Possible(k, HandleInstallAnswer(s, m)) && SoundReply(k, HandleInstallAnswer(s, m))
    ensures CommitsOk(AfterInstallAnswer(k, s, m.from, m.install, m.term))
  {
    var p := k.peers[s];
    assert PeerOk(k.core, s, p);
    if m.term > p.node.term {
      LaterTermCommits(k, s, m.term);
    } else {
      RaiseMoves(k.core, s, m.term);
      InstallAnswerOutcome(k, s, m);
      AnswerCommits(k, s, OnSnapshotReply(p.node, s, m.from, m.install, m.term));
    }
  }

  lemma InstallAnswerOutcome(k: Cluster, s: nat, m: Message)
    requires CommitInv(k) && Possible(k, HandleInstallAnswer(s, m)) && SoundReply(k, HandleInstallAnswer(s, m))
    requires m.term <= k.peers[s].node.term
    ensures var o := OnSnapshotReply(k.peers[s].node, s, m.from, m.install, m.term);
      o.Lives? ==> o.value.Valid(k.core.n) && CommitPeer(k.core, s, k.peers[s].(node := o.value))
  {
    var c, p := k.core, k.peers[s];
    assert PeerOk(c, s, p) && MessageOk(c, m) && CommitMessage(c, m) && CommitPeer(c, s, p);
    if p.node.role == Leader { SnapshotCredits(c, s, p.node, m.from, m.install); }
    CreditCommits(c, s, p, m.from, m.install.lastIncluded);
  }

  // ----- the service, the applier, crashes -----

  /** Steps of the service and the applier touch neither the history nor a leader's view. */
  lemma LocalStep(k: Cluster, k': Cluster, s: nat, p': Peer)
    requires CommitInv(k) && s < |k.peers| && k' == Put(k, s, p', {}, k.core).(outputs := k'.outputs)
    requires p'.node.Valid(|k.peers|) && ServiceOk(k.core.log[s], p')
    requires Chosen(k.core, k.core.log[s], p'.node.commitIndex, p'.node.term)
    requires p'.node.role == Leader ==>
      && k.peers[s].node.role == Leader && p'.node.term == k.peers[s].node.term
      && p'.node.matchIndex == k.peers[s].node.matchIndex && p'.node.commitIndex == k.peers[s].node.commitIndex
    requires forall i, cmd :: (i, cmd) in k'.outputs && (i, cmd) !in k.outputs ==> Agreed(k.core, i, cmd)
    ensures CommitsOk(k')
  {
    Unmoved(k.core, s);
    assert CommitPeer(k.core, s, k.peers[s]);
    CommitPut(k, k', s, p', {}, k.core);
  }

  lemma CrashCommits(k: Cluster, s: nat)
    requires CommitInv(k) && s < |k.peers|
    ensures CommitsOk(Put(k, s, Reborn(k.peers[s], |k.peers|), {}, k.core))
  {
    var p := k.peers[s];
    assert PeerOk(k.core, s, p) && CommitPeer(k.core, s, p);
    OpenPeer(k.core, s, p);
    ChosenShorter(k.core, k.core.log[s], p.node.commitIndex, p.node.term, p.node.lastIncluded);
    LocalStep(k, Put(k, s, Reborn(p, |k.peers|), {}, k.core), s, Reborn(p, |k.peers|));
  }

  lemma ServiceSnapshotCommits(k: Cluster, s: nat)
    requires CommitInv(k) && s < |k.peers|
    ensures CommitsOk(AfterServiceSnapshot(k, s))
  {
    var p := k.peers[s];
    assert PeerOk(k.core, s, p) && CommitPeer(k.core, s, p);
    OpenPeer(k.core, s, p);
    LocalStep(k, AfterServiceSnapshot(k, s), s, AfterServiceSnapshot(k, s).peers[s]);
  }

  lemma TakeStepCommits(k: Cluster, s: nat)
    requires CommitInv(k) && s < |k.peers| && |k.peers[s].node.log| > 0 && k.peers[s].applier.Idle?
    ensures CommitsOk(AfterTake(k, s))
  {
    var p := k.peers[s];
    assert PeerOk(k.core, s, p) && CommitPeer(k.core, s, p);
    OpenPeer(k.core, s, p);
    TakeOutcome(k.core.log[s], p);
    match TakeMessage(p.node)
    case Lives((n', Nothing)) =>
    case Lives((n', Message(msg))) => LocalStep(k, AfterTake(k, s), s, p.(node := n', applier := Holding(msg)));
  }

  lemma TakeOutcome(full: Log, p: Peer)
    requires ServiceOk(full, p) && p.applier.Idle? && Compacts(p.node.log, p.node.lastIncluded, full)
    ensures match TakeMessage(p.node)
      case Died => false
      case Lives((n', Nothing)) => true
      case Lives((n', Message(msg))) =>
        n' == p.node.(snapshotPending := false) && ServiceOk(full, p.(node := n', applier := Holding(msg)))
  {
    if !p.node.snapshotPending && p.node.lastApplied < p.node.commitIndex {
      CompactsAt(p.node.log, p.node.lastIncluded, full, p.node.lastApplied + 1);
    }
  }

  lemma DeliverCommits(k: Cluster, s: nat)
    requires CommitInv(k) && s < |k.peers| && k.peers[s].applier.Holding?
    ensures CommitsOk(AfterDeliver(k, s))
  {
    var p, p' := k.peers[s], AfterDeliver(k, s).peers[s];
    assert PeerOk(k.core, s, p) && CommitPeer(k.core, s, p);
    OpenPeer(k.core, s, p);
    DeliverService(k.core.log[s], p, p');
    if p.applier.msg.CommandMsg? {
      ChosenAgreed(k.core, k.core.log[s], p.node.commitIndex, p.node.term, p.applier.msg.index);
    }
    LocalStep(k, AfterDeliver(k, s), s, p');
  }

  lemma DeliverService(full: Log, p: Peer, p': Peer)
    requires ServiceOk(full, p) && p.applier.Holding?
    requires p' == p.(applier := Delivered(p.applier.msg), journalIndex := p.applier.msg.index,
                      journal := match p.applier.msg case CommandMsg(_, cmd) => p.journal + [cmd]
                                                     case SnapshotMsg(_, _, data) => data)
    ensures ServiceOk(full, p')
  {
  }

  lemma FinishCommits(k: Cluster, s: nat)
    requires CommitInv(k) && s < |k.peers| && k.peers[s].applier.Delivered?
    ensures CommitsOk(AfterFinish(k, s))
  {
    var p, p' := k.peers[s], AfterFinish(k, s).peers[s];
    assert PeerOk(k.core, s, p) && CommitPeer(k.core, s, p);
    OpenPeer(k.core, s, p);
    FinishService(k.core.log[s], p);
    LocalStep(k, AfterFinish(k, s), s, p');
  }

  lemma FinishService(full: Log, p: Peer)
    requires ServiceOk(full, p) && p.applier.Delivered?
    ensures ServiceOk(full, p.(node := FinishMessage(p.node, p.applier.msg), applier := Idle))
  {
  }

  // ----- every sound step -----

  lemma NextCommits(k: Cluster, step: Step)
    requires CommitInv(k) && Possible(k, step) && SoundReply(k, step)
    ensures CommitInv(Next(k, step))
  {
    NextKeeps(k, step);
    StepCommits(k, step);
  }

  lemma StepCommits(k: Cluster, step: Step)
    requires CommitInv(k) && Possible(k, step) && SoundReply(k, step)
    ensures CommitsOk(Next(k, step))
  {
    match step
    case Timeout(s) => TimeoutCommits(k, s);
    case HandleVote(s, m) => VoteCommits(k, s, m.vote);
    case HandleVoteAnswer(s, m) => VoteAnswerCommits(k, s, m.from, m.asked, m.voteReply);
    case Client(s, command) => ClientCommits(k, s, command);
    case Replicate(s, i) => ReplicateCommits(k, s, i);
    case HandleAppend(s, m) => AppendCommits(k, s, m.append);
    case HandleAppendAnswer(s, m) => AppendAnswerCommits(k, s, m);
    case HandleInstall(s, m) => InstallCommits(k, s, m.install);
    case HandleInstallAnswer(s, m) => InstallAnswerCommits(k, s, m);
    case ServiceSnapshot(s) => ServiceSnapshotCommits(k, s);
    case Take(s) => TakeStepCommits(k, s);
    case Deliver(s) => DeliverCommits(k, s);
    case Finish(s) => FinishCommits(k, s);
    case Crash(s) => CrashCommits(k, s);
  }

  lemma InitCommits(k: Cluster)
    requires Init(k)
    ensures CommitInv(k)
  {
    InitKeeps(k);
    forall s: nat | s < |k.peers| ensures k.peers[s].node.Valid(k.core.n) && CommitPeer(k.core, s, k.peers[s]) {
      assert k.core.log[s] == [ROOT];
    }
  }
}
