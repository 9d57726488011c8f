/**
 * A server that compacts its log behaves like one that does not. The other server is the same
 * program with every entry still in its log; where the compacting one has a snapshot, it has a
 * checkpoint of its service that survives crashes. It differs from the program in what concerns
 * entries before the checkpoint, and there only: it refuses an AppendEntries that starts before it,
 * points no follower and no leader below it, sends it instead of earlier entries, and takes a
 * leader's log over together with one.
 */
module RaftRefinement {
  import opened RaftLog
  import opened RaftNode
  import opened RaftCompaction
  import opened RaftCluster
  import opened RaftClusterProof
  import opened RaftCommit
  import opened RaftSafety
  import C = RaftCore
  import P = RaftCoreProof

  // ----- what a step makes of its server -----

  ghost predicate CanAct(p: Peer, peers: nat, step: Step) {
    && step.server < peers && p.node.Valid(peers)
    && match step
       case HandleVote(_, m) => m.VoteRequest?
       case HandleVoteAnswer(_, m) => m.VoteAnswer?
       case HandleAppend(_, m) => m.AppendRequest?
       case HandleInstall(_, m) => m.InstallRequest?
       case HandleAppendAnswer(_, m) => m.AppendAnswer? && m.from < peers
       case HandleInstallAnswer(_, m) => m.InstallAnswer? && m.from < peers
       case Replicate(_, i) => i < peers
       case Take(_) => p.applier.Idle?
       case Deliver(_) => p.applier.Holding?
       case Finish(_) => p.applier.Delivered?
       case _ => true
  }

  /** The server's new state and the messages it sends, or the end of its process. */
  ghost function Acts(p: Peer, peers: nat, step: Step): Outcome<(Peer, set<Message>)>
    requires CanAct(p, peers, step)
  {
    match step
    case Timeout(s) =>
      var (n', args) := StartElection(p.node, s);
      Lives((p.(node := n', election := Election(1, false), counted := {}),
             set i | 0 <= i < peers && i != s :: VoteRequest(i, args)))
    case HandleVote(s, m) =>
      var (n', r) := OnRequestVote(p.node, m.vote);
      Lives((p.(node := n'), {VoteAnswer(m.vote.candidate, s, m.vote.term, r)}))
    case HandleVoteAnswer(s, m) =>
      var (n', e') := OnVoteReply(p.node, p.election, peers, m.voteReply);
      var counted := if Counts(p.node, m.voteReply) then p.counted + {m.from} else p.counted;
      Lives((p.(node := n', election := e', counted := counted), {}))
    case Client(_, command) => Lives((p.(node := Propose(p.node, command)), {}))
    case Replicate(s, i) =>
      (match Send(p.node, s, i)
       case Died => Died
       case Lives(Silent) => Lives((p, {}))
       case Lives(Append(a)) => Lives((p, {AppendRequest(i, a)}))
       case Lives(Install(a)) => Lives((p, {InstallRequest(i, a)})))
    case HandleAppend(s, m) =>
      var (n', r) := OnAppendEntries(p.node, m.append);
      Lives((p.(node := n'), {AppendAnswer(m.append.leader, s, m.append, r)}))
    case HandleAppendAnswer(s, m) => Quietly(p, OnAppendReply(p.node, s, m.from, m.append, m.appendReply))
    case HandleInstall(s, m) =>
      var (n', term) := OnInstallSnapshot(p.node, m.install);
      Lives((p.(node := n'), {InstallAnswer(m.install.leader, s, m.install, term)}))
    case HandleInstallAnswer(s, m) => Quietly(p, OnSnapshotReply(p.node, s, m.from, m.install, m.term))
    case ServiceSnapshot(_) => Quietly(p, OnSnapshot(p.node, p.journalIndex, p.journal))
    case Take(_) =>
      (match TakeMessage(p.node)
       case Died => Died
       case Lives((_, Nothing)) => Lives((p, {}))
       case Lives((n', Message(msg))) => Lives((p.(node := n', applier := Holding(msg)), {})))
    case Deliver(_) => Lives((Delivery(p), {}))
    case Finish(_) => Lives((p.(node := FinishMessage(p.node, p.applier.msg), applier := Idle), {}))
    case Crash(_) => Died
  }

  function Quietly(p: Peer, o: Outcome<Node>): Outcome<(Peer, set<Message>)> {
    match o
    case Died => Died
    case Lives(n) => Lives((p.(node := n), {}))
  }

  function Delivery(p: Peer): Peer
    requires p.applier.Holding?
  {
    match p.applier.msg
    case CommandMsg(i, c) => p.(applier := Delivered(p.applier.msg), journal := p.journal + [c], journalIndex := i)
    case SnapshotMsg(i, _, data) => p.(applier := Delivered(p.applier.msg), journal := data, journalIndex := i)
  }

  /** A step of the cluster is what its server does with it. */
  lemma ActsIsNext(k: Cluster, step: Step)
    requires Possible(k, step)
    ensures CanAct(k.peers[step.server], |k.peers|, step)
    ensures var p := k.peers[step.server]; var k' := Next(k, step);
      match Acts(p, |k.peers|, step)
      case Died => k'.peers == k.peers[step.server := Reborn(p, |k.peers|)] && k'.net == k.net
      case Lives((p', sent)) => k'.peers == k.peers[step.server := p'] && k'.net == k.net + sent
  {
  }

  // ----- the server that never compacts -----

  datatype Server = Server(peer: Peer, checkpoint: nat)

  ghost predicate WellFormed(u: Server, peers: nat) {
    u.peer.node.Valid(peers) && u.peer.node.lastIncluded == 0 && u.checkpoint < |u.peer.node.log|
  }

  /** After a crash the service is at its checkpoint. */
  function Restarted(u: Server, peers: nat): Server {
    var disk := u.peer.node.disk;
    Server(Peer(Restart(disk, peers).(commitIndex := u.checkpoint, lastApplied := u.checkpoint),
                Election(0, false), {}, Idle, disk.snapshot, u.checkpoint), u.checkpoint)
  }

  /** The program itself, run on the full log. */
  ghost predicate Exactly(u: Server, peers: nat, step: Step, u': Server, sent: set<Message>)
    requires CanAct(u.peer, peers, step)
  {
    Acts(u.peer, peers, step) == Lives((u'.peer, sent)) && u'.checkpoint == u.checkpoint
  }

  /** A hint does not lead below the checkpoint. */
  function Hinted(r: AppendReply, checkpoint: nat): AppendReply {
    if r.success then r else r.(conflictIndex := Max(r.conflictIndex, checkpoint + 1))
  }

  function SpecAppend(n: Node, checkpoint: nat, a: AppendArgs): (Node, AppendReply)
    requires |n.log| > 0
  {
    if n.term > a.term then OnAppendEntries(n, a)
    else if a.prevLogIndex < checkpoint then (Heard(n, a.term), AppendReply(a.term, false, NO_TERM, checkpoint + 1))
    else
      var (n', r) := OnAppendEntries(n, a);
      (n', Hinted(r, checkpoint))
  }

  /** The search for the term of a refusal goes no further back than the checkpoint. */
  function SpecBacktrack(n: Node, checkpoint: nat, a: AppendArgs, r: AppendReply): Outcome<nat> {
    match Backtrack(n, a.prevLogIndex, r.conflictIndex, r.conflictTerm)
    case Died => Died
    case Lives(k) => Lives(if k <= checkpoint then r.conflictIndex else k)
  }

  /** The refusal leads to a search. */
  ghost predicate Searches(n: Node, from: nat, a: AppendArgs, r: AppendReply)
    requires from < |n.matchIndex|
  {
    r.term <= n.term && !r.success && n.matchIndex[from] < a.prevLogIndex && r.conflictTerm != NO_TERM
  }

  /** The leader's log up to the checkpoint, and the checkpoint. */
  function SpecInstalled(u: Server, a: SnapshotArgs, leaderLog: Log): Server
    requires |u.peer.node.log| > 0 && a.lastIncluded < |leaderLog|
  {
    var n := HeardInstall(u.peer.node, a.term);
    if u.peer.node.term > a.term then u
    else if u.checkpoint >= a.lastIncluded then u.(peer := u.peer.(node := n))
    else
      var k := n.(log := C.Merge(n.log, leaderLog, a.lastIncluded), snapshot := a.data);
      Server(u.peer.(node := Persist(if k.lastApplied < a.lastIncluded
                                     then k.(commitIndex := Max(a.lastIncluded, k.commitIndex), snapshotPending := true) else k)),
             a.lastIncluded)
  }

  function SpecCheckpointed(u: Server): Server {
    if u.peer.journalIndex <= u.checkpoint then u
    else Server(u.peer.(node := Persist(u.peer.node.(snapshot := u.peer.journal))), u.peer.journalIndex)
  }

  /** What the uncompacted server does where the compacting one does `step`. */
  ghost predicate SpecActs(u: Server, peers: nat, step: Step, leaderLog: Log, u': Server, sent: set<Message>)
    requires WellFormed(u, peers) && CanAct(u.peer, peers, step)
  {
    var n := u.peer.node;
    match step
    case HandleAppend(s, m) =>
      var (n', r) := SpecAppend(n, u.checkpoint, m.append);
      u' == u.(peer := u.peer.(node := n')) && sent == {AppendAnswer(m.append.leader, s, m.append, r)}
    case Replicate(s, i) =>
      if n.role == Leader && n.nextIndex[i] <= u.checkpoint then
        u' == u && sent == {InstallRequest(i, SnapshotArgs(n.term, s, u.checkpoint, n.log[u.checkpoint].term, n.snapshot))}
      else Exactly(u, peers, step, u', sent)
    case HandleAppendAnswer(_, m) =>
      if Searches(n, m.from, m.append, m.appendReply) then
        var next := SpecBacktrack(n, u.checkpoint, m.append, m.appendReply);
        && next.Lives? && sent == {}
        && u' == u.(peer := u.peer.(node := n.(nextIndex :=
             n.nextIndex[m.from := Max(next.value, n.matchIndex[m.from] + 1)])))
      else Exactly(u, peers, step, u', sent)
    case HandleInstall(s, m) =>
      && m.install.lastIncluded < |leaderLog| && u' == SpecInstalled(u, m.install, leaderLog)
      && sent == {InstallAnswer(m.install.leader, s, m.install, Max(n.term, m.install.term))}
    case ServiceSnapshot(_) => u' == SpecCheckpointed(u) && sent == {}
    case Take(_) =>
      if n.snapshotPending then
        sent == {} && u' == u.(peer := u.peer.(node := n.(snapshotPending := false),
          applier := Holding(SnapshotMsg(u.checkpoint, n.log[u.checkpoint].term, n.snapshot))))
      else Exactly(u, peers, step, u', sent)
    case _ => Exactly(u, peers, step, u', sent)
  }

  // ----- the two servers side by side -----

  function Uncompact(n: Node, full: Log): Node {
    n.(log := full, lastIncluded := 0, disk := n.disk.(log := full, snapshotIndex := 0))
  }

  function Whole(p: Peer, full: Log): Server {
    Server(p.(node := Uncompact(p.node, full)), p.node.lastIncluded)
  }

  /** u is n with the compacted entries back in the log. */
  ghost predicate Expands(u: Node, n: Node) {
    Compacts(n.log, n.lastIncluded, u.log) && u == Uncompact(n, u.log)
  }

  lemma SameLast(n: Node, full: Log)
    requires Compacts(n.log, n.lastIncluded, full)
    ensures Uncompact(n, full).LastIndex() == n.LastIndex() && LastTerm(full) == LastTerm(n.log)
  {
    CompactsLast(n.log, n.lastIncluded, full);
  }

  lemma SameVote(u: Node, n: Node, a: VoteArgs)
    requires Expands(u, n)
    ensures OnRequestVote(u, a).1 == OnRequestVote(n, a).1
    ensures Expands(OnRequestVote(u, a).0, OnRequestVote(n, a).0)
    ensures OnRequestVote(u, a).0.log == u.log
  {
    SameLast(n, u.log);
  }

  lemma {:induction false} SameMatchLength(log: Log, base: nat, full: Log, index: nat, entries: Log)
    requires Compacts(log, base, full) && base < index <= |full|
    ensures MatchLength(log, index - base, entries) == MatchLength(full, index, entries)
    decreases |entries|
  {
    if index < |full| {
      CompactsAt(log, base, full, index);
      if entries != [] { SameMatchLength(log, base, full, index + 1, entries[1..]); }
    }
  }

  function SplicedAt(log: Log, at: nat, entries: Log, k: nat): Log
    requires at + k <= |log| && k <= |entries|
  {
    if k < |entries| then log[..at + k] + entries[k..] else log
  }

  lemma SplicedAtSame(log: Log, base: nat, full: Log, index: nat, entries: Log, k: nat)
    requires Compacts(log, base, full) && base < index && index + k <= |full| && k <= |entries|
    ensures Compacts(SplicedAt(log, index - base, entries, k), base, SplicedAt(full, index, entries, k))
  {
    if k < |entries| { CompactsSplice(log, base, full, index + k, entries[k..]); }
  }

  lemma SameSplice(log: Log, base: nat, full: Log, index: nat, entries: Log)
    requires Compacts(log, base, full) && base < index <= |full|
    ensures MatchLength(log, index - base, entries) == MatchLength(full, index, entries)
    ensures Compacts(Spliced(log, index - base, entries), base, Spliced(full, index, entries))
  {
    SameMatchLength(log, base, full, index, entries);
    SplicedAtSame(log, base, full, index, entries, MatchLength(full, index, entries));
  }

  /** TakeEntries is a splice, written through if anything changed, and then the commit rule. */
  function Takes(n: Node, log: Log, changed: bool): Node {
    if changed then Persist(n.(log := log)) else n
  }

  function Commits(n: Node, leaderCommit: nat): Node
    requires |n.log| > 0
  {
    if leaderCommit > n.commitIndex then n.(commitIndex := Min(leaderCommit, n.LastIndex())) else n
  }

  lemma TakeInSteps(n: Node, a: AppendArgs, at: nat)
    requires |n.log| > 0 && n.InLog(a.prevLogIndex) && at == a.prevLogIndex + 1 - n.lastIncluded
    ensures var m := Takes(n, Spliced(n.log, at, a.entries), MatchLength(n.log, at, a.entries) < |a.entries|);
      |m.log| > 0 && TakeEntries(n, a) == Commits(m, a.leaderCommit)
  {
  }

  lemma SameCommit(u: Node, n: Node, leaderCommit: nat)
    requires Expands(u, n)
    ensures Expands(Commits(u, leaderCommit), Commits(n, leaderCommit)) && Commits(u, leaderCommit).log == u.log
  {
  }

  lemma SameTakes(u: Node, n: Node, full: Log, log: Log, changed: bool)
    requires Expands(u, n) && Compacts(log, n.lastIncluded, full) && (changed || full == u.log)
    ensures Expands(Takes(u, full, changed), Takes(n, log, changed)) && Takes(u, full, changed).log == full
  {
  }

  lemma SameTake(u: Node, n: Node, a: AppendArgs)
    requires Expands(u, n) && n.InLog(a.prevLogIndex)
    ensures Expands(TakeEntries(u, a), TakeEntries(n, a))
    ensures TakeEntries(u, a) == Uncompact(TakeEntries(n, a), Spliced(u.log, a.prevLogIndex + 1, a.entries))
  {
    var index, at := a.prevLogIndex + 1, a.prevLogIndex + 1 - n.lastIncluded;
    var changed := MatchLength(n.log, at, a.entries) < |a.entries|;
    SameSplice(n.log, n.lastIncluded, u.log, index, a.entries);
    TakeInSteps(u, a, index);
    TakeInSteps(n, a, at);
    var full, log := Spliced(u.log, index, a.entries), Spliced(n.log, at, a.entries);
    SameTakes(u, n, full, log, changed);
    SameCommit(Takes(u, full, changed), Takes(n, log, changed), a.leaderCommit);
  }

  lemma SameMatches(u: Node, n: Node, a: AppendArgs)
    requires Expands(u, n) && a.prevLogIndex >= n.lastIncluded
    ensures |u.log| > 0 && u.term == n.term && (Matches(u, a) <==> Matches(n, a))
  {
    if a.prevLogIndex <= n.LastIndex() { CompactsAt(n.log, n.lastIncluded, u.log, a.prevLogIndex); }
  }

  lemma {:induction false} ConflictStartLow(n: Node, i: nat, term: int)
    requires n.InLog(i)
    decreases i
    ensures ConflictStart(n, i, term) <= i + 1
  {
    if i > n.lastIncluded { ConflictStartLow(n, i - 1, term); }
  }

  /** The scan for the start of a term ends in the same place, or at the compacted part. */
  lemma {:induction false} SameConflict(u: Node, n: Node, i: nat, term: int)
    requires Expands(u, n) && n.InLog(i) && u.InLog(i)
    decreases i
    ensures ConflictStart(n, i, term) == Max(ConflictStart(u, i, term), n.lastIncluded + 1)
  {
    ConflictStartLow(u, i, term);
    if i > n.lastIncluded {
      CompactsAt(n.log, n.lastIncluded, u.log, i);
      if n.TermAt(i) == term { SameConflict(u, n, i - 1, term); }
    }
  }

  lemma SameReply(u: Node, n: Node, a: AppendArgs)
    requires Expands(u, n) && a.prevLogIndex >= n.lastIncluded
    ensures Judged(n, a).1 == Hinted(Judged(u, a).1, n.lastIncluded)
  {
    SameMatches(u, n, a);
    if n.InLog(a.prevLogIndex) {
      CompactsAt(n.log, n.lastIncluded, u.log, a.prevLogIndex);
      if !Matches(n, a) { SameConflict(u, n, a.prevLogIndex, n.TermAt(a.prevLogIndex)); }
    }
  }

  /** In the part of the log that is still there, requests are judged alike. */
  lemma SameJudgement(u: Node, n: Node, a: AppendArgs)
    requires Expands(u, n) && a.prevLogIndex >= n.lastIncluded
    ensures Judged(n, a).1 == Hinted(Judged(u, a).1, n.lastIncluded)
    ensures Expands(Judged(u, a).0, Judged(n, a).0)
  {
    SameReply(u, n, a);
    SameMatches(u, n, a);
    JudgedMatch(u, a);
    JudgedMatch(n, a);
    if Matches(n, a) { SameTake(u, n, a); }
  }

  /** If the compacting leader's commit scan ends, the other's ends in the same place. */
  lemma {:induction false} SameCommitFrom(u: Node, n: Node, me: nat, index: nat)
    requires Expands(u, n) && index < n.lastIncluded + |n.log| && CommitFrom(n, me, index).Lives?
    ensures CommitFrom(u, me, index) == CommitFrom(n, me, index)
    decreases index
  {
    if index > n.commitIndex {
      CompactsAt(n.log, n.lastIncluded, u.log, index);
      if n.TermAt(index) == n.term && Holders(n.matchIndex, me, index) <= |n.matchIndex| / 2 {
        SameCommitFrom(u, n, me, index - 1);
      }
    }
  }

  lemma SameMatched(u: Node, n: Node, me: nat, i: nat, index: nat)
    requires Expands(u, n) && i < |n.nextIndex| && i < |n.matchIndex| && Matched(n, me, i, index).Lives?
    ensures Matched(u, me, i, index) == Lives(Uncompact(Matched(n, me, i, index).value, u.log))
  {
    if n.matchIndex[i] < index {
      SameCommitFrom(u.(matchIndex := u.matchIndex[i := index], nextIndex := u.nextIndex[i := index + 1]),
                     n.(matchIndex := n.matchIndex[i := index], nextIndex := n.nextIndex[i := index + 1]), me, n.LastIndex());
    }
  }

  /** The compacting leader finds what the other finds, or gives up at its compacted part. */
  lemma {:induction false} SameBacktrack(u: Node, n: Node, j: int, floor: nat, term: int)
    requires Expands(u, n) && Backtrack(n, j, floor, term).Lives?
    ensures var o := Backtrack(u, j, floor, term);
      o.Lives? && Backtrack(n, j, floor, term).value == if o.value <= n.lastIncluded then floor else o.value
    decreases j + 1
  {
    if j < n.lastIncluded {
      BacktrackSpec(u, j, floor, term);
    } else if j >= floor {
      CompactsAt(n.log, n.lastIncluded, u.log, j);
      if n.TermAt(j) != term { SameBacktrack(u, n, j - 1, floor, term); }
    }
  }

  // ----- the applier, in every run -----

  /** A snapshot is pending, or the service is on its way to what the snapshot stands for, or past it. */
  ghost predicate ApplierOk(p: Peer) {
    var n := p.node;
    && p.journalIndex == (if p.applier.Delivered? then p.applier.msg.index else n.lastApplied)
    && (!p.applier.Idle? ==> match p.applier.msg
          case CommandMsg(i, _) => i == n.lastApplied + 1
          case SnapshotMsg(i, _, _) => n.lastApplied <= i <= n.lastIncluded)
    && (if n.snapshotPending then Target(p) <= n.lastIncluded else n.lastIncluded <= Target(p))
  }

  /** Everything the applier does not look at. */
  predicate SameForApplier(p: Peer, p': Peer) {
    && p'.applier == p.applier && p'.journalIndex == p.journalIndex
    && p'.node.lastApplied == p.node.lastApplied && p'.node.lastIncluded == p.node.lastIncluded
    && p'.node.snapshotPending == p.node.snapshotPending
  }

  lemma ApplierKept(p: Peer, peers: nat, step: Step)
    requires CanAct(p, peers, step) && ApplierOk(p)
    ensures match Acts(p, peers, step)
      case Died => ApplierOk(Reborn(p, peers))
      case Lives((p', _)) => ApplierOk(p')
  {
    if step.HandleInstall? {
      InstallForApplier(p, step.msg.install);
    } else if step.HandleAppendAnswer? || step.HandleInstallAnswer? {
      RepliesForApplier(p, peers, step);
    } else if step.HandleAppend? {
      AppendForApplier(p.node, step.msg.append);
    } else if step.ServiceSnapshot? || step.Take? || step.Deliver? || step.Finish? {
      ServiceForApplier(p, peers, step);
    } else {
      OthersForApplier(p, peers, step);
    }
  }

  lemma ServiceForApplier(p: Peer, peers: nat, step: Step)
    requires CanAct(p, peers, step) && ApplierOk(p)
    requires step.ServiceSnapshot? || step.Take? || step.Deliver? || step.Finish?
    ensures match Acts(p, peers, step)
      case Died => ApplierOk(Reborn(p, peers))
      case Lives((p', _)) => ApplierOk(p')
  {
  }

  lemma AppendForApplier(n: Node, a: AppendArgs)
    requires |n.log| > 0
    ensures var n' := OnAppendEntries(n, a).0;
      && n'.lastApplied == n.lastApplied && n'.lastIncluded == n.lastIncluded
      && n'.snapshotPending == n.snapshotPending && n'.snapshot == n.snapshot
  {
  }

  lemma InstallForApplier(p: Peer, a: SnapshotArgs)
    requires |p.node.log| > 0 && ApplierOk(p)
    ensures ApplierOk(p.(node := OnInstallSnapshot(p.node, a).0))
  {
  }

  lemma RepliesForApplier(p: Peer, peers: nat, step: Step)
    requires CanAct(p, peers, step) && (step.HandleAppendAnswer? || step.HandleInstallAnswer?)
    ensures Acts(p, peers, step).Lives? ==> SameForApplier(p, Acts(p, peers, step).value.0)
  {
  }

  lemma OthersForApplier(p: Peer, peers: nat, step: Step)
    requires CanAct(p, peers, step) && !step.HandleAppendAnswer? && !step.HandleInstallAnswer? && !step.HandleAppend?
    requires !step.HandleInstall? && !step.ServiceSnapshot? && !step.Take? && !step.Deliver? && !step.Finish?
    ensures Acts(p, peers, step).Lives? ==> SameForApplier(p, Acts(p, peers, step).value.0)
  {
  }

  lemma {:induction false} RunApplier(states: seq<Cluster>, steps: seq<Step>, i: nat, s: nat)
    requires Run(states, steps) && i < |states| && s < |states[i].peers|
    ensures ApplierOk(states[i].peers[s])
  {
    if i > 0 {
      var k, step := states[i - 1], steps[i - 1];
      assert Follows(states, steps, i - 1);
      ActsIsNext(k, step);
      RunApplier(states, steps, i - 1, s);
      if s == step.server { ApplierKept(k.peers[s], |k.peers|, step); }
    }
  }

  // ----- the full log, in every run -----

  /** What the step makes of its server's full log. */
  ghost function Grown(c: C.Core, p: Peer, peers: nat, step: Step, full: Log): Log
    requires CanAct(p, peers, step)
  {
    match step
    case Client(_, command) => if p.node.role == Leader then full + [Entry(p.node.term, command)] else full
    case HandleAppend(_, m) =>
      var a := m.append;
      if OnAppendEntries(p.node, a).1.success && a.term in c.reigns && a.prevLogIndex + |a.entries| < |c.LeaderLog(a.term)|
      then C.Merge(full, c.LeaderLog(a.term), a.prevLogIndex + |a.entries|) else full
    case HandleInstall(_, m) =>
      var a := m.install;
      if p.node.term <= a.term && p.node.lastIncluded < a.lastIncluded &&
        a.term in c.reigns && a.lastIncluded < |c.LeaderLog(a.term)|
      then C.Merge(full, c.LeaderLog(a.term), a.lastIncluded) else full
    case _ => full
  }

  lemma HistoryGrows(k: Cluster, step: Step)
    requires Inv(k) && Possible(k, step)
    ensures var s := step.server; var p := k.peers[s];
      && CanAct(p, |k.peers|, step) && s < |k.core.log| == |k.peers|
      && Next(k, step).core.log == k.core.log[s := Grown(k.core, p, |k.peers|, step, k.core.log[s])]
  {
    var c, s, p := k.core, step.server, k.peers[step.server];
    assert PeerOk(c, s, p);
    match step
    case HandleAppend(_, m) =>
      assert MessageOk(c, m);
      AppendGrows(c, s, p, |k.peers|, m);
    case HandleInstall(_, m) =>
      assert MessageOk(c, m);
      InstallLog(c, s, p.node, m.install);
    case Timeout(_) => ElectionHistory(k, step);
    case HandleVote(_, m) => VoteHistory(k, s, m.vote);
    case HandleVoteAnswer(_, _) => ElectionHistory(k, step);
    case _ => HistoryStays(k, step);
  }

  lemma VoteHistory(k: Cluster, s: nat, a: VoteArgs)
    requires s < |k.peers| == k.core.n && C.Shape(k.core) && PeerOk(k.core, s, k.peers[s])
    ensures AfterVote(k, s, a).core.log == k.core.log
  {
  }

  lemma ElectionHistory(k: Cluster, step: Step)
    requires Possible(k, step) && C.Shape(k.core) && k.core.n == |k.peers|
    requires PeerOk(k.core, step.server, k.peers[step.server]) && (step.Timeout? || step.HandleVoteAnswer?)
    ensures Next(k, step).core.log == k.core.log
  {
  }

  lemma HistoryStays(k: Cluster, step: Step)
    requires Possible(k, step) && C.Shape(k.core) && k.core.n == |k.peers|
    requires PeerOk(k.core, step.server, k.peers[step.server]) && !step.HandleAppend? && !step.HandleInstall?
    requires !step.Timeout? && !step.HandleVote? && !step.HandleVoteAnswer?
    ensures var s := step.server; var p := k.peers[s];
      Next(k, step).core.log == k.core.log[s := Grown(k.core, p, |k.peers|, step, k.core.log[s])]
  {
  }

  lemma AppendGrows(c: C.Core, s: nat, p: Peer, peers: nat, m: Message)
    requires C.Inv(c) && s < c.n == peers && PeerOk(c, s, p) && m.AppendRequest? && MessageOk(c, m)
    ensures AppendHistory(c, s, m.append, OnAppendEntries(p.node, m.append).1).log ==
              c.log[s := Grown(c, p, peers, HandleAppend(s, m), c.log[s])]
  {
    var r := OnAppendEntries(p.node, m.append).1;
    SuccessNotOld(p.node, m.append, r);
    GrownByAppend(c, s, p, peers, m, c.log[s], r);
    AppendLog(c, s, m.append, r);
  }

  lemma SuccessNotOld(n: Node, a: AppendArgs, r: AppendReply)
    requires |n.log| > 0 && r == OnAppendEntries(n, a).1
    ensures r.success ==> n.term <= a.term
  {
  }

  lemma GrownByAppend(c: C.Core, s: nat, p: Peer, peers: nat, m: Message, full: Log, r: AppendReply)
    requires CanAct(p, peers, HandleAppend(s, m)) && AppendOk(c, m.append) && r == OnAppendEntries(p.node, m.append).1
    ensures Grown(c, p, peers, HandleAppend(s, m), full) ==
              if r.success then C.Merge(full, c.LeaderLog(m.append.term), m.append.prevLogIndex + |m.append.entries|) else full
  {
  }

  lemma AppendLog(c: C.Core, s: nat, a: AppendArgs, r: AppendReply)
    requires C.Inv(c) && s < c.n && AppendOk(c, a) && (r.success ==> c.term[s] <= a.term)
    ensures AppendHistory(c, s, a, r).log ==
              c.log[s := if r.success then C.Merge(c.log[s], c.LeaderLog(a.term), a.prevLogIndex + |a.entries|) else c.log[s]]
  {
    RaiseLog(c, s, a.term);
    if r.success { AcceptLog(Raise(c, s, a.term), s, a.prevLogIndex + |a.entries|); }
  }

  lemma RaiseLog(c: C.Core, s: nat, term: nat)
    requires C.Inv(c) && s < c.n
    ensures var c' := Raise(c, s, term);
      && C.Inv(c') && c'.n == c.n && c'.log == c.log && c'.reigns == c.reigns
      && |c'.term| == c.n && c'.term[s] == Max(c.term[s], term)
  {
    RaiseOk(c, s, term);
  }

  lemma AcceptLog(c: C.Core, s: nat, m: nat)
    requires C.Inv(c) && s < c.n && c.term[s] in c.reigns && m < |c.LeaderLog(c.term[s])|
    ensures P.Do(c, C.Accept(s, m)).log == c.log[s := C.Merge(c.log[s], c.LeaderLog(c.term[s]), m)]
  {
    AcceptOk(c, s, m);
  }

  lemma InstallLog(c: C.Core, s: nat, n: Node, a: SnapshotArgs)
    requires C.Inv(c) && s < c.n && n.term == c.term[s] && InstallOk(c, a)
    ensures InstallHistory(c, s, n, a).log ==
              c.log[s := if n.term <= a.term && n.lastIncluded < a.lastIncluded
                         then C.Merge(c.log[s], c.LeaderLog(a.term), a.lastIncluded) else c.log[s]]
  {
    RaiseLog(c, s, a.term);
    if n.term <= a.term { AcceptLog(Raise(c, s, a.term), s, a.lastIncluded); }
  }

  lemma SuccessInTerm(n: Node, a: AppendArgs)
    requires |n.log| > 0 && OnAppendEntries(n, a).1.success
    ensures n.term <= a.term && Matches(Heard(n, a.term), a) && OnAppendEntries(n, a).0 == TakeEntries(Heard(n, a.term), a)
  {
  }

  // ----- one step -----

  /** The compacting server p stands for the uncompacted one with this full log. */
  ghost predicate StandsFor(p: Peer, full: Log) {
    Compacts(p.node.log, p.node.lastIncluded, full) && Current(p.node) && ApplierOk(p)
  }

  /** What p does with the step, the server it stands for may do, with the same messages. */
  ghost predicate Refined(p: Peer, peers: nat, step: Step, full: Log, leaderLog: Log, full': Log)
    requires CanAct(p, peers, step) && StandsFor(p, full)
  {
    match Acts(p, peers, step)
    case Died => full' == full ==> Whole(Reborn(p, peers), full') == Restarted(Whole(p, full), peers)
    case Lives((p', sent)) => SpecActs(Whole(p, full), peers, step, leaderLog, Whole(p', full'), sent)
  }

  lemma RebornRefined(p: Peer, peers: nat, full: Log)
    requires StandsFor(p, full)
    ensures Whole(Reborn(p, peers), full) == Restarted(Whole(p, full), peers)
  {
  }

  lemma ElectionRefined(p: Peer, peers: nat, step: Step, full: Log, leaderLog: Log)
    requires CanAct(p, peers, step) && StandsFor(p, full) && (step.Timeout? || step.HandleVoteAnswer?)
    ensures Refined(p, peers, step, full, leaderLog, full)
  {
    SameLast(p.node, full);
  }

  lemma VoteRefined(p: Peer, peers: nat, s: nat, m: Message, full: Log, leaderLog: Log)
    requires CanAct(p, peers, HandleVote(s, m)) && StandsFor(p, full)
    ensures Refined(p, peers, HandleVote(s, m), full, leaderLog, full)
  {
    SameVote(Uncompact(p.node, full), p.node, m.vote);
  }

  lemma ClientRefined(p: Peer, peers: nat, s: nat, command: Command, full: Log, leaderLog: Log)
    requires CanAct(p, peers, Client(s, command)) && StandsFor(p, full)
    ensures Refined(p, peers, Client(s, command), full, leaderLog,
                    if p.node.role == Leader then full + [Entry(p.node.term, command)] else full)
  {
  }

  lemma ReplicateRefined(p: Peer, peers: nat, s: nat, i: nat, full: Log, leaderLog: Log)
    requires CanAct(p, peers, Replicate(s, i)) && StandsFor(p, full)
    ensures Refined(p, peers, Replicate(s, i), full, leaderLog, full)
  {
    var n := p.node;
    if Send(n, s, i).Died? {
      RebornRefined(p, peers, full);
    } else if n.role == Leader && n.lastIncluded < n.nextIndex[i] {
      SameSend(n, full, s, i);
    }
  }

  lemma SameSend(n: Node, full: Log, s: nat, i: nat)
    requires Compacts(n.log, n.lastIncluded, full) && i < |n.nextIndex| && Send(n, s, i).Lives?
    requires n.role == Leader && n.lastIncluded < n.nextIndex[i]
    ensures Send(Uncompact(n, full), s, i) == Send(n, s, i) && Send(n, s, i).value.Append?
  {
    var next := n.nextIndex[i];
    CompactsAt(n.log, n.lastIncluded, full, next - 1);
    CompactsCut(n.log, n.lastIncluded, full, next - 1);
    assert n.log[next - n.lastIncluded..] == n.log[next - 1 - n.lastIncluded..][1..];
    assert full[next..] == full[next - 1 + 1..];
  }

  lemma HeardSame(u: Node, n: Node, term: nat)
    requires Expands(u, n) && n.term <= term
    ensures Expands(Heard(u, term), Heard(n, term)) && Heard(u, term).log == u.log && Heard(n, term).term == term
  {
  }

  lemma JudgedSame(u: Node, n: Node, a: AppendArgs, full': Log)
    requires Expands(u, n) && n.term == a.term && n.lastIncluded <= a.prevLogIndex
    requires a.prevLogIndex < |u.log| || !Matches(n, a)
    requires full' == if Matches(n, a) then Spliced(u.log, a.prevLogIndex + 1, a.entries) else u.log
    ensures Uncompact(Judged(n, a).0, full') == Judged(u, a).0
  {
    JudgedMatch(n, a);
    JudgedMatch(u, a);
    SameMatches(u, n, a);
    if Matches(n, a) { SameTake(u, n, a); }
  }

  ghost predicate SplicedBy(r: AppendReply, full: Log, a: AppendArgs, full': Log) {
    if r.success then a.prevLogIndex < |full| && full' == Spliced(full, a.prevLogIndex + 1, a.entries) else full' == full
  }

  lemma AppendSame(u: Node, n: Node, a: AppendArgs, full': Log)
    requires Expands(u, n) && SplicedBy(OnAppendEntries(n, a).1, u.log, a, full')
    ensures (Uncompact(OnAppendEntries(n, a).0, full'), OnAppendEntries(n, a).1) == SpecAppend(u, n.lastIncluded, a)
  {
    if n.term <= a.term {
      HeardSame(u, n, a.term);
      JudgedMatch(Heard(n, a.term), a);
      if n.lastIncluded <= a.prevLogIndex {
        JudgedSame(Heard(u, a.term), Heard(n, a.term), a, full');
        SameReply(Heard(u, a.term), Heard(n, a.term), a);
      }
    }
  }

  lemma AppendRefined(p: Peer, peers: nat, s: nat, m: Message, full: Log, leaderLog: Log, full': Log)
    requires CanAct(p, peers, HandleAppend(s, m)) && StandsFor(p, full)
    requires SplicedBy(OnAppendEntries(p.node, m.append).1, full, m.append, full')
    ensures Refined(p, peers, HandleAppend(s, m), full, leaderLog, full')
  {
    var a := m.append;
    AppendSame(Uncompact(p.node, full), p.node, a, full');
    AppendKeepsBase(p.node, a);
  }

  lemma AppendKeepsBase(n: Node, a: AppendArgs)
    requires |n.log| > 0
    ensures OnAppendEntries(n, a).0.lastIncluded == n.lastIncluded
  {
    AppendForApplier(n, a);
  }

  lemma AppendReplyRefined(p: Peer, peers: nat, s: nat, m: Message, full: Log, leaderLog: Log)
    requires CanAct(p, peers, HandleAppendAnswer(s, m)) && StandsFor(p, full)
    ensures Refined(p, peers, HandleAppendAnswer(s, m), full, leaderLog, full)
  {
    var n, u, a, r := p.node, Uncompact(p.node, full), m.append, m.appendReply;
    if OnAppendReply(n, s, m.from, a, r).Died? {
      RebornRefined(p, peers, full);
    } else if r.term <= n.term {
      if r.success {
        SameMatched(u, n, s, m.from, a.prevLogIndex + |a.entries|);
        MatchedKeepsBase(n, s, m.from, a.prevLogIndex + |a.entries|);
      } else {
        RefusalRefined(p, peers, s, m, full, leaderLog);
      }
    }
  }

  lemma RefusalRefined(p: Peer, peers: nat, s: nat, m: Message, full: Log, leaderLog: Log)
    requires CanAct(p, peers, HandleAppendAnswer(s, m)) && StandsFor(p, full)
    requires OnAppendReply(p.node, s, m.from, m.append, m.appendReply).Lives?
    requires m.appendReply.term <= p.node.term && !m.appendReply.success
    ensures Refined(p, peers, HandleAppendAnswer(s, m), full, leaderLog, full)
  {
    var n, a, r := p.node, m.append, m.appendReply;
    if n.matchIndex[m.from] < a.prevLogIndex && r.conflictTerm != NO_TERM {
      SameBacktrack(Uncompact(n, full), n, a.prevLogIndex, r.conflictIndex, r.conflictTerm);
    }
  }

  lemma MatchedKeepsBase(n: Node, me: nat, i: nat, index: nat)
    requires |n.log| > 0 && i < |n.nextIndex| && i < |n.matchIndex| && Matched(n, me, i, index).Lives?
    ensures Matched(n, me, i, index).value.lastIncluded == n.lastIncluded
  {
  }

  lemma SnapshotReplyRefined(p: Peer, peers: nat, s: nat, m: Message, full: Log, leaderLog: Log)
    requires CanAct(p, peers, HandleInstallAnswer(s, m)) && StandsFor(p, full)
    ensures Refined(p, peers, HandleInstallAnswer(s, m), full, leaderLog, full)
  {
    var n := p.node;
    if OnSnapshotReply(n, s, m.from, m.install, m.term).Died? {
      RebornRefined(p, peers, full);
    } else if m.term <= n.term {
      SameMatched(Uncompact(n, full), n, s, m.from, m.install.lastIncluded);
      MatchedKeepsBase(n, s, m.from, m.install.lastIncluded);
    }
  }

  lemma InstallRefined(p: Peer, peers: nat, s: nat, m: Message, full: Log, leaderLog: Log, full': Log)
    requires CanAct(p, peers, HandleInstall(s, m)) && StandsFor(p, full) && m.install.lastIncluded < |leaderLog|
    requires full' == if p.node.term <= m.install.term && p.node.lastIncluded < m.install.lastIncluded
                      then C.Merge(full, leaderLog, m.install.lastIncluded) else full
    ensures Refined(p, peers, HandleInstall(s, m), full, leaderLog, full')
  {
    InstalledSame(p, full, leaderLog, full', m.install);
  }

  lemma InstalledSame(p: Peer, full: Log, leaderLog: Log, full': Log, a: SnapshotArgs)
    requires StandsFor(p, full) && a.lastIncluded < |leaderLog|
    requires full' == if p.node.term <= a.term && p.node.lastIncluded < a.lastIncluded
                      then C.Merge(full, leaderLog, a.lastIncluded) else full
    ensures Whole(p.(node := OnInstallSnapshot(p.node, a).0), full') == SpecInstalled(Whole(p, full), a, leaderLog)
    ensures OnInstallSnapshot(p.node, a).1 == Max(p.node.term, a.term)
  {
    if p.node.term <= a.term {
      var n := HeardInstall(p.node, a.term);
      assert Uncompact(n, full) == HeardInstall(Uncompact(p.node, full), a.term);
      if n.lastIncluded < a.lastIncluded { AdoptedSame(n, full, a, full'); }
    }
  }

  lemma AdoptedSame(n: Node, full: Log, a: SnapshotArgs, full': Log)
    requires |n.log| > 0 && n.lastIncluded < a.lastIncluded
    ensures var k := Uncompact(n, full).(log := full', snapshot := a.data);
      && Installed(n, a).lastIncluded == a.lastIncluded
      && Uncompact(Installed(n, a), full') ==
           Persist(if k.lastApplied < a.lastIncluded
                   then k.(commitIndex := Max(a.lastIncluded, k.commitIndex), snapshotPending := true) else k)
  {
  }

  /** The service and the applier. */
  lemma ServiceRefined(p: Peer, peers: nat, step: Step, full: Log, leaderLog: Log)
    requires CanAct(p, peers, step) && StandsFor(p, full)
    requires step.ServiceSnapshot? || step.Deliver? || step.Finish? || step.Crash?
    ensures Refined(p, peers, step, full, leaderLog, full)
  {
    RebornRefined(p, peers, full);
  }

  lemma TakeRefined(p: Peer, peers: nat, s: nat, full: Log, leaderLog: Log)
    requires CanAct(p, peers, Take(s)) && StandsFor(p, full)
    ensures Refined(p, peers, Take(s), full, leaderLog, full)
  {
    RebornRefined(p, peers, full);
    var n := p.node;
    CompactsAt(n.log, n.lastIncluded, full, n.lastIncluded);
    if !n.snapshotPending && n.lastApplied < n.commitIndex && n.InLog(n.lastApplied + 1) {
      CompactsAt(n.log, n.lastIncluded, full, n.lastApplied + 1);
    }
  }

  // ----- every step of every run -----

  /** Truncate-and-append on the full log is the merge with the leader's. */
  lemma SpliceIsMerge(reigns: map<nat, C.Reign>, full: Log, leaderLog: Log, prev: nat, prevTerm: nat, entries: Log)
    requires C.LogOk(reigns, full) && C.LogOk(reigns, leaderLog)
    requires Segment(leaderLog, prev, prevTerm, entries) && prev < |full| && full[prev].term == prevTerm
    ensures Spliced(full, prev + 1, entries) == C.Merge(full, leaderLog, prev + |entries|)
  {
    SplicedMerges(reigns, full, 0, full, leaderLog, prev, prevTerm, entries);
    var x, y := Spliced(full, prev + 1, entries), C.Merge(full, leaderLog, prev + |entries|);
    assert x == [x[0]] + x[1..] && y == [y[0]] + y[1..];
  }

  /** The log of the leader that sent the snapshot. */
  ghost function SenderLog(c: C.Core, step: Step): Log {
    if step.HandleInstall? && step.msg.InstallRequest? && step.msg.install.term in c.reigns
    then c.LeaderLog(step.msg.install.term) else []
  }

  lemma AppendStepRefined(c: C.Core, s: nat, p: Peer, peers: nat, m: Message)
    requires C.Shape(c) && C.LogsOk(c) && C.ReignsOk(c) && s < c.n == peers
    requires PeerOk(c, s, p) && ApplierOk(p) && m.AppendRequest? && MessageOk(c, m)
    ensures Refined(p, peers, HandleAppend(s, m), c.log[s], [], Grown(c, p, peers, HandleAppend(s, m), c.log[s]))
  {
    assert C.ReignOk(c, m.append.term) && C.LogOk(c.reigns, c.log[s]);
    GrownByAppend(c, s, p, peers, m, c.log[s], OnAppendEntries(p.node, m.append).1);
    MergeRefined(p, peers, s, m, c.reigns, c.log[s], c.LeaderLog(m.append.term),
                 Grown(c, p, peers, HandleAppend(s, m), c.log[s]));
  }

  lemma MergeRefined(p: Peer, peers: nat, s: nat, m: Message, reigns: map<nat, C.Reign>, full: Log, leaderLog: Log, full': Log)
    requires CanAct(p, peers, HandleAppend(s, m)) && StandsFor(p, full)
    requires C.LogOk(reigns, full) && C.LogOk(reigns, leaderLog)
    requires Segment(leaderLog, m.append.prevLogIndex, m.append.prevLogTerm, m.append.entries)
    requires full' == if OnAppendEntries(p.node, m.append).1.success
                      then C.Merge(full, leaderLog, m.append.prevLogIndex + |m.append.entries|) else full
    ensures Refined(p, peers, HandleAppend(s, m), full, [], full')
  {
    var a, r := m.append, OnAppendEntries(p.node, m.append).1;
    if r.success { SuccessMatches(p.node, full, a); }
    MergeSplices(reigns, full, leaderLog, a, full', r);
    AppendRefined(p, peers, s, m, full, [], full');
  }

  lemma MergeSplices(reigns: map<nat, C.Reign>, full: Log, leaderLog: Log, a: AppendArgs, full': Log, r: AppendReply)
    requires C.LogOk(reigns, full) && C.LogOk(reigns, leaderLog)
    requires Segment(leaderLog, a.prevLogIndex, a.prevLogTerm, a.entries)
    requires r.success ==> a.prevLogIndex < |full| && full[a.prevLogIndex].term == a.prevLogTerm
    requires full' == if r.success then C.Merge(full, leaderLog, a.prevLogIndex + |a.entries|) else full
    ensures SplicedBy(r, full, a, full')
  {
    if r.success { SpliceIsMerge(reigns, full, leaderLog, a.prevLogIndex, a.prevLogTerm, a.entries); }
  }

  lemma SuccessMatches(n: Node, full: Log, a: AppendArgs)
    requires Compacts(n.log, n.lastIncluded, full) && OnAppendEntries(n, a).1.success
    ensures a.prevLogIndex < |full| && full[a.prevLogIndex].term == a.prevLogTerm
  {
    SuccessInTerm(n, a);
    CompactsAt(n.log, n.lastIncluded, full, a.prevLogIndex);
  }

  lemma StepRefined(k: Cluster, step: Step)
    requires Inv(k) && Possible(k, step) && ApplierOk(k.peers[step.server])
    ensures var s := step.server; var p := k.peers[s]; var c := k.core;
      && s < |c.log| && StandsFor(p, c.log[s]) && CanAct(p, |k.peers|, step)
      && Refined(p, |k.peers|, step, c.log[s], SenderLog(c, step), Grown(c, p, |k.peers|, step, c.log[s]))
  {
    var c, s, p, n := k.core, step.server, k.peers[step.server], |k.peers|;
    assert PeerOk(c, s, p);
    match step
    case Client(_, command) => ClientRefined(p, n, s, command, c.log[s], []);
    case Replicate(_, i) => ReplicateRefined(p, n, s, i, c.log[s], []);
    case HandleAppend(_, m) =>
      assert MessageOk(c, m);
      AppendStepRefined(c, s, p, n, m);
    case HandleAppendAnswer(_, m) => AppendReplyRefined(p, n, s, m, c.log[s], []);
    case HandleInstall(_, m) =>
      assert MessageOk(c, m);
      InstallRefined(p, n, s, m, c.log[s], SenderLog(c, step), Grown(c, p, n, step, c.log[s]));
    case HandleInstallAnswer(_, m) => SnapshotReplyRefined(p, n, s, m, c.log[s], []);
    case Timeout(_) => ElectionRefined(p, n, step, c.log[s], []);
    case HandleVote(_, m) => VoteRefined(p, n, s, m, c.log[s], []);
    case HandleVoteAnswer(_, _) => ElectionRefined(p, n, step, c.log[s], []);
    case Take(_) => TakeRefined(p, n, s, c.log[s], []);
    case _ => ServiceRefined(p, n, step, c.log[s], []);
  }

  /** The uncompacted server for server s after i steps. */
  ghost function ServerAt(states: seq<Cluster>, i: nat, s: nat): Server
    requires i < |states| && s < |states[i].peers| && s < |states[i].core.log|
  {
    Whole(states[i].peers[s], states[i].core.log[s])
  }

  /** Step i of the run is a step of the uncompacted server, or a crash, or none of its own. */
  ghost predicate LivesOn(states: seq<Cluster>, steps: seq<Step>, i: nat, s: nat, u: Server, u': Server)
    requires |states| == |steps| + 1 && i < |steps|
  {
    var k, k', step := states[i], states[i + 1], steps[i];
    if step.server != s then u' == u
    else
      && s < |k.peers| && CanAct(k.peers[s], |k.peers|, step) && CanAct(u.peer, |k.peers|, step) && WellFormed(u, |k.peers|)
      && match Acts(k.peers[s], |k.peers|, step)
         case Died => u' == Restarted(u, |k.peers|) && k'.net == k.net
         case Lives((_, sent)) => SpecActs(u, |k.peers|, step, SenderLog(k.core, step), u', sent) && k'.net == k.net + sent
  }

  /**
   * Every server of every run, whatever it is asked, hears, delivers and loses in crashes, does what
   * an uncompacted server may do, sends the same messages and gives its service the same commands.
   */
  lemma CompactionRefined(states: seq<Cluster>, steps: seq<Step>, i: nat, s: nat)
    requires Run(states, steps) && i < |steps| && s < |states[i].peers|
    ensures s < |states[i].core.log| && s < |states[i + 1].peers| && s < |states[i + 1].core.log|
    ensures LivesOn(states, steps, i, s, ServerAt(states, i, s), ServerAt(states, i + 1, s))
  {
    var k, step := states[i], steps[i];
    RunInv(states, steps, i);
    assert Follows(states, steps, i);
    ActsIsNext(k, step);
    HistoryGrows(k, step);
    if step.server == s {
      RunApplier(states, steps, i, s);
      StepRefined(k, step);
      StepAsServer(k, step);
    }
  }

  lemma StepAsServer(k: Cluster, step: Step)
    requires Inv(k) && Possible(k, step) && step.server < |k.core.log|
    ensures var u := Whole(k.peers[step.server], k.core.log[step.server]);
      CanAct(k.peers[step.server], |k.peers|, step) && CanAct(u.peer, |k.peers|, step) && WellFormed(u, |k.peers|)
  {
    assert PeerOk(k.core, step.server, k.peers[step.server]);
  }

  /** It starts as the program starts. */
  lemma ServersStart(states: seq<Cluster>, steps: seq<Step>, s: nat)
    requires Run(states, steps) && s < |states[0].peers|
    ensures s < |states[0].core.log|
    ensures ServerAt(states, 0, s) == Server(Peer(Boot(|states[0].peers|), Election(0, false), {}, Idle, [], 0), 0)
  {
  }

  // ----- deaths, in sound runs -----

  /** Where the compacting server dies of an index out of range, the other does too. */
  lemma DiesToo(p: Peer, peers: nat, step: Step, full: Log)
    requires CanAct(p, peers, step) && StandsFor(p, full) && ServiceOk(full, p) && p.node.Valid(peers)
    requires !step.Crash? && Acts(p, peers, step).Died? && CanAct(Whole(p, full).peer, peers, step)
    ensures Acts(Whole(p, full).peer, peers, step).Died?
  {
    match step
    case HandleAppendAnswer(s, m) => AnswerDies(p.node, full, s, m.from, m.append, m.appendReply);
    case HandleInstallAnswer(s, m) => MatchedLives(p.node, s, m.from, m.install.lastIncluded);
    case Take(_) => TakeOutcome(full, p);
    case _ =>
  }

  lemma AnswerDies(n: Node, full: Log, s: nat, from: nat, a: AppendArgs, r: AppendReply)
    requires Compacts(n.log, n.lastIncluded, full) && n.lastIncluded <= n.commitIndex
    requires from < |n.nextIndex| && from < |n.matchIndex| && OnAppendReply(n, s, from, a, r).Died?
    ensures OnAppendReply(Uncompact(n, full), s, from, a, r).Died?
  {
    if r.success {
      MatchedLives(n, s, from, a.prevLogIndex + |a.entries|);
    } else {
      SearchDies(n, full, a, r);
    }
  }

  lemma MatchedLives(n: Node, s: nat, i: nat, index: nat)
    requires |n.log| > 0 && i < |n.nextIndex| && i < |n.matchIndex| && n.lastIncluded <= n.commitIndex
    ensures Matched(n, s, i, index).Lives?
  {
    var n' := n.(matchIndex := n.matchIndex[i := index], nextIndex := n.nextIndex[i := index + 1]);
    CommitFromFinds(n', s, n'.LastIndex());
  }

  lemma SearchDies(n: Node, full: Log, a: AppendArgs, r: AppendReply)
    requires Compacts(n.log, n.lastIncluded, full)
    requires Backtrack(n, a.prevLogIndex, r.conflictIndex, r.conflictTerm).Died?
    ensures Backtrack(Uncompact(n, full), a.prevLogIndex, r.conflictIndex, r.conflictTerm).Died?
  {
    if a.prevLogIndex <= n.LastIndex() { BacktrackSpec(n, a.prevLogIndex, r.conflictIndex, r.conflictTerm); }
  }

  /** Compaction kills no server: in every sound run, a step on which one dies is a crash, or one on
      which the uncompacted server dies too. */
  lemma CompactionAddsNoDeath(states: seq<Cluster>, steps: seq<Step>, i: nat)
    requires SoundRun(states, steps) && i < |steps|
    ensures Possible(states[i], steps[i])
    ensures var step := steps[i]; var k := states[i]; var s := step.server;
      && s < |k.core.log| && CanAct(k.peers[s], |k.peers|, step) && CanAct(ServerAt(states, i, s).peer, |k.peers|, step)
      && (Acts(k.peers[s], |k.peers|, step).Died? ==>
            step.Crash? || Acts(ServerAt(states, i, s).peer, |k.peers|, step).Died?)
  {
    SoundRunInv(states, steps, i);
    assert SoundAt(states, steps, i);
    var k, step := states[i], steps[i];
    var p := k.peers[step.server];
    assert PeerOk(k.core, step.server, p) && CommitPeer(k.core, step.server, p);
    OpenPeer(k.core, step.server, p);
    RunApplier(states, steps, i, step.server);
    StepAsServer(k, step);
    if Acts(p, |k.peers|, step).Died? && !step.Crash? { DiesToo(p, |k.peers|, step, k.core.log[step.server]); }
  }
}
