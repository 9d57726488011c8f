/** A cluster of peers over a network that loses, delays, reorders and repeats messages, with
    crashes at any time. Each lock-held section of raft.go is one step. `core` is a history
    variable: nothing that happens depends on it. */
module RaftCluster {
  import opened RaftLog
  import opened RaftNode
  import C = RaftCore
  import P = RaftCoreProof

  /** Between steps the applier has nothing, holds a message, or has handed one over. */
  datatype Applier = Idle | Holding(msg: ApplyMsg) | Delivered(msg: ApplyMsg)

  /** A peer with what hangs off it: the closure of its current election, its applier, and the
      service, which has executed `journal` and counts it as everything up to `journalIndex`. */
  datatype Peer = Peer(
    node: Node,
    election: Election,
    counted: set<nat>,        // peers whose vote this election has counted
    applier: Applier,
    journal: seq<Command>,
    journalIndex: nat)

  datatype Message =
    | VoteRequest(to: nat, vote: VoteArgs)
    | VoteAnswer(to: nat, from: nat, asked: nat, voteReply: VoteReply)
    | AppendRequest(to: nat, append: AppendArgs)
    | AppendAnswer(to: nat, from: nat, append: AppendArgs, appendReply: AppendReply)
    | InstallRequest(to: nat, install: SnapshotArgs)
    | InstallAnswer(to: nat, from: nat, install: SnapshotArgs, term: nat)

  datatype Cluster = Cluster(
    peers: seq<Peer>,
    net: set<Message>,
    outputs: set<(nat, Command)>,   // every (index, command) any service was ever given
    core: C.Core)

  datatype Step =
    | Timeout(server: nat)
    | HandleVote(server: nat, msg: Message)
    | HandleVoteAnswer(server: nat, msg: Message)
    | Client(server: nat, command: Command)
    | Replicate(server: nat, follower: nat)
    | HandleAppend(server: nat, msg: Message)
    | HandleAppendAnswer(server: nat, msg: Message)
    | HandleInstall(server: nat, msg: Message)
    | HandleInstallAnswer(server: nat, msg: Message)
    | ServiceSnapshot(server: nat)
    | Take(server: nat)
    | Deliver(server: nat)
    | Finish(server: nat)
    | Crash(server: nat)

  predicate Init(k: Cluster) {
    var n := |k.peers|;
    && n > 0 && k.net == {} && k.outputs == {}
    && (forall i :: 0 <= i < n ==> k.peers[i] == Peer(Boot(n), Election(0, false), {}, Idle, [], 0))
    && k.core == C.Core(n, seq(n, i => 0), seq(n, i => [ROOT]), map[], map[], map[])
  }

  ghost predicate Possible(k: Cluster, step: Step) {
    && step.server < |k.peers|
    && k.peers[step.server].node.Valid(|k.peers|)
    && var p := k.peers[step.server];
    match step
    case HandleVote(s, m) => m in k.net && m.VoteRequest? && m.to == s
    case HandleVoteAnswer(s, m) =>
      m in k.net && m.VoteAnswer? && m.to == s && (m.asked == p.node.term ==> m.from !in p.counted)
    case HandleAppend(s, m) => m in k.net && m.AppendRequest? && m.to == s
    case HandleInstall(s, m) => m in k.net && m.InstallRequest? && m.to == s
    case HandleAppendAnswer(s, m) => m in k.net && m.AppendAnswer? && m.to == s && m.from < |k.peers|
    case HandleInstallAnswer(s, m) => m in k.net && m.InstallAnswer? && m.to == s && m.from < |k.peers|
    case Replicate(s, i) => i < |k.peers| && i != s
    case Take(_) => p.applier == Idle
    case Deliver(_) => p.applier.Holding?
    case Finish(_) => p.applier.Delivered?
    case _ => true
  }

  /** The process is gone; it comes back with what the persister holds. */
  function Reborn(p: Peer, peers: nat): Peer {
    Peer(Restart(p.node.disk, peers), Election(0, false), {}, Idle, p.node.disk.snapshot, p.node.disk.snapshotIndex)
  }

  function Survive(p: Peer, peers: nat, o: Outcome<Node>): Peer {
    match o
    case Died => Reborn(p, peers)
    case Lives(n) => p.(node := n)
  }

  function Put(k: Cluster, s: nat, p: Peer, sent: set<Message>, core: C.Core): Cluster
    requires s < |k.peers|
  {
    k.(peers := k.peers[s := p], net := k.net + sent, core := core)
  }

  function Raise(c: C.Core, s: nat, term: nat): C.Core {
    if s < |c.term| && c.term[s] < term then P.Do(c, C.BumpTerm(s, term)) else c
  }

  // ----- the effect of each step -----

  function AfterTimeout(k: Cluster, s: nat): Cluster
    requires s < |k.peers| && |k.peers[s].node.log| > 0
  {
    var p := k.peers[s];
    var (n', args) := StartElection(p.node, s);
    var sent := set i | 0 <= i < |k.peers| && i != s :: VoteRequest(i, args);
    Put(k, s, p.(node := n', election := Election(1, false), counted := {}), sent, P.Do(k.core, C.Stand(s)))
  }

  function AfterVote(k: Cluster, s: nat, a: VoteArgs): Cluster
    requires s < |k.peers| && |k.peers[s].node.log| > 0
  {
    var p := k.peers[s];
    var (n', r) := OnRequestVote(p.node, a);
    Put(k, s, p.(node := n'), {VoteAnswer(a.candidate, s, a.term, r)}, VoteHistory(k.core, s, a, r))
  }

  function VoteHistory(c: C.Core, s: nat, a: VoteArgs, r: VoteReply): C.Core {
    var c' := Raise(c, s, a.term);
    if r.granted then P.Do(c', C.Cast(s, a.candidate)) else c'
  }

  predicate Counts(n: Node, r: VoteReply) {
    r.term <= n.term && r.granted && n.role == Candidate && r.term == n.term
  }

  function AfterVoteAnswer(k: Cluster, s: nat, from: nat, r: VoteReply): Cluster
    requires s < |k.peers| && |k.peers[s].node.log| > 0
  {
    var p := k.peers[s];
    var (n', e') := OnVoteReply(p.node, p.election, |k.peers|, r);
    var counted' := if Counts(p.node, r) then p.counted + {from} else p.counted;
    var c := Raise(k.core, s, r.term);
    Put(k, s, p.(node := n', election := e', counted := counted'), {},
        if n'.role == Leader && p.node.role != Leader then P.Do(c, C.Win(s, {s} + counted')) else c)
  }

  function AfterClient(k: Cluster, s: nat, command: Command): Cluster
    requires s < |k.peers|
  {
    var p := k.peers[s];
    Put(k, s, p.(node := Propose(p.node, command)), {},
        if p.node.role == Leader then P.Do(k.core, C.Propose(s, command)) else k.core)
  }

  function AfterReplicate(k: Cluster, s: nat, i: nat): Cluster
    requires s < |k.peers| && k.peers[s].node.Valid(|k.peers|) && i < |k.peers|
  {
    var p := k.peers[s];
    match Send(p.node, s, i)
    case Died => Put(k, s, Reborn(p, |k.peers|), {}, k.core)
    case Lives(Silent) => k
    case Lives(Append(a)) => Put(k, s, p, {AppendRequest(i, a)}, k.core)
    case Lives(Install(a)) => Put(k, s, p, {InstallRequest(i, a)}, k.core)
  }

  function AfterAppend(k: Cluster, s: nat, a: AppendArgs): Cluster
    requires s < |k.peers| && |k.peers[s].node.log| > 0
  {
    var p := k.peers[s];
    var (n', r) := OnAppendEntries(p.node, a);
    Put(k, s, p.(node := n'), {AppendAnswer(a.leader, s, a, r)}, AppendHistory(k.core, s, a, r))
  }

  function AppendHistory(c: C.Core, s: nat, a: AppendArgs, r: AppendReply): C.Core {
    JudgedHistory(Raise(c, s, a.term), s, a, r)
  }

  function JudgedHistory(c: C.Core, s: nat, a: AppendArgs, r: AppendReply): C.Core {
    if r.success then P.Do(c, C.Accept(s, a.prevLogIndex + |a.entries|)) else c
  }

  function AfterAppendAnswer(k: Cluster, s: nat, from: nat, a: AppendArgs, r: AppendReply): Cluster
    requires s < |k.peers| && k.peers[s].node.Valid(|k.peers|) && from < |k.peers|
  {
    var p := k.peers[s];
    Put(k, s, Survive(p, |k.peers|, OnAppendReply(p.node, s, from, a, r)), {}, Raise(k.core, s, r.term))
  }

  /** The follower's log has what the snapshot stands for, so the leader may count on it. */
  predicate Covered(c: C.Core, s: nat, a: SnapshotArgs) {
    s < |c.log| && a.term in c.reigns && Agree(c.LeaderLog(a.term), c.log[s], a.lastIncluded + 1)
  }

  function AfterInstall(k: Cluster, s: nat, a: SnapshotArgs): Cluster
    requires s < |k.peers| && |k.peers[s].node.log| > 0
  {
    var p := k.peers[s];
    var (n', term) := OnInstallSnapshot(p.node, a);
    Put(k, s, p.(node := n'), {InstallAnswer(a.leader, s, a, term)}, InstallHistory(k.core, s, p.node, a))
  }

  function InstallHistory(c: C.Core, s: nat, n: Node, a: SnapshotArgs): C.Core {
    if n.term <= a.term then InstalledHistory(Raise(c, s, a.term), s, n, a) else c
  }

  function InstalledHistory(c: C.Core, s: nat, n: Node, a: SnapshotArgs): C.Core {
    if n.lastIncluded < a.lastIncluded || Covered(c, s, a) then P.Do(c, C.Accept(s, a.lastIncluded)) else c
  }

  function AfterInstallAnswer(k: Cluster, s: nat, from: nat, a: SnapshotArgs, term: nat): Cluster
    requires s < |k.peers| && k.peers[s].node.Valid(|k.peers|) && from < |k.peers|
  {
    var p := k.peers[s];
    Put(k, s, Survive(p, |k.peers|, OnSnapshotReply(p.node, s, from, a, term)), {}, Raise(k.core, s, term))
  }

  function AfterServiceSnapshot(k: Cluster, s: nat): Cluster
    requires s < |k.peers|
  {
    var p := k.peers[s];
    Put(k, s, Survive(p, |k.peers|, OnSnapshot(p.node, p.journalIndex, p.journal)), {}, k.core)
  }

  function AfterTake(k: Cluster, s: nat): Cluster
    requires s < |k.peers| && |k.peers[s].node.log| > 0
  {
    var p := k.peers[s];
    match TakeMessage(p.node)
    case Died => Put(k, s, Reborn(p, |k.peers|), {}, k.core)
    case Lives((n', Nothing)) => k
    case Lives((n', Message(msg))) => Put(k, s, p.(node := n', applier := Holding(msg)), {}, k.core)
  }

  function AfterDeliver(k: Cluster, s: nat): Cluster
    requires s < |k.peers| && k.peers[s].applier.Holding?
  {
    var p := k.peers[s];
    match p.applier.msg
    case CommandMsg(i, c) =>
      Put(k, s, p.(applier := Delivered(p.applier.msg), journal := p.journal + [c], journalIndex := i), {}, k.core)
      .(outputs := k.outputs + {(i, c)})
    case SnapshotMsg(i, _, data) =>
      Put(k, s, p.(applier := Delivered(p.applier.msg), journal := data, journalIndex := i), {}, k.core)
  }

  function AfterFinish(k: Cluster, s: nat): Cluster
    requires s < |k.peers| && k.peers[s].applier.Delivered?
  {
    var p := k.peers[s];
    Put(k, s, p.(node := FinishMessage(p.node, p.applier.msg), applier := Idle), {}, k.core)
  }

  function Next(k: Cluster, step: Step): Cluster
    requires Possible(k, step)
  {
    match step
    case Timeout(s) => AfterTimeout(k, s)
    case HandleVote(s, m) => AfterVote(k, s, m.vote)
    case HandleVoteAnswer(s, m) => AfterVoteAnswer(k, s, m.from, m.voteReply)
    case Client(s, command) => AfterClient(k, s, command)
    case Replicate(s, i) => AfterReplicate(k, s, i)
    case HandleAppend(s, m) => AfterAppend(k, s, m.append)
    case HandleAppendAnswer(s, m) => AfterAppendAnswer(k, s, m.from, m.append, m.appendReply)
    case HandleInstall(s, m) => AfterInstall(k, s, m.install)
    case HandleInstallAnswer(s, m) => AfterInstallAnswer(k, s, m.from, m.install, m.term)
    case ServiceSnapshot(s) => AfterServiceSnapshot(k, s)
    case Take(s) => AfterTake(k, s)
    case Deliver(s) => AfterDeliver(k, s)
    case Finish(s) => AfterFinish(k, s)
    case Crash(s) => Put(k, s, Reborn(k.peers[s], |k.peers|), {}, k.core)
  }

  /** A run: each state follows from the one before by a possible step. */
  ghost predicate Run(states: seq<Cluster>, steps: seq<Step>) {
    && |states| == |steps| + 1 && Init(states[0])
    && forall i: nat {:trigger Follows(states, steps, i)} :: i < |steps| ==> Follows(states, steps, i)
  }

  ghost predicate Follows(states: seq<Cluster>, steps: seq<Step>, i: nat)
    requires |states| == |steps| + 1 && i < |steps|
  {
    Possible(states[i], steps[i]) && states[i + 1] == Next(states[i], steps[i])
  }

  // ----- which replies are safe to count -----

  /** An entry of the server's own term that, by matchIndex, a majority has. */
  ghost predicate MajorityHeld(n: Node, me: nat, index: nat) {
    n.InLog(index) && n.TermAt(index) == n.term && Holders(n.matchIndex, me, index) > |n.matchIndex| / 2
  }

  /** Nothing beyond the commit index has a majority. */
  ghost predicate NoMajority(n: Node, me: nat) {
    forall j: nat :: n.commitIndex < j ==> !MajorityHeld(n, me, j)
  }

  /** Crediting the peer with `index` makes up no majority that would move the commit index. */
  ghost predicate MovesNothing(n: Node, me: nat, from: nat, index: nat)
    requires from < |n.matchIndex|
  {
    NoMajority(n.(matchIndex := n.matchIndex[from := index]), me)
  }

  /**
   * Whether server `me` may credit peer `from` with everything up to `index`, in answer to a
   * request of term `asked`. A leader may if the request is of its own term, or if the credit cannot
   * count: the index is committed, or holds an entry of an older term. Out of office it may if the
   * credit commits nothing.
   */
  ghost predicate SafeCredit(n: Node, me: nat, from: nat, asked: nat, index: nat)
    requires |n.log| > 0 && from < |n.matchIndex|
  {
    if n.role == Leader then
      asked == n.term || index <= n.commitIndex || (n.InLog(index) && n.TermAt(index) < n.term)
    else MovesNothing(n, me, from, index)
  }

  /** If the step raises matchIndex, the credit is safe. A leader need not look at snapshot replies. */
  ghost predicate SoundReply(k: Cluster, step: Step)
    requires Possible(k, step)
  {
    var n := k.peers[step.server].node;
    match step
    case HandleAppendAnswer(_, m) =>
      var index := m.append.prevLogIndex + |m.append.entries|;
      m.appendReply.term <= n.term && m.appendReply.success && n.matchIndex[m.from] < index ==>
        SafeCredit(n, step.server, m.from, m.append.term, index)
    case HandleInstallAnswer(_, m) =>
      m.term <= n.term && n.matchIndex[m.from] < m.install.lastIncluded && n.role != Leader ==>
        MovesNothing(n, step.server, m.from, m.install.lastIncluded)
    case _ => true
  }

  /**
   * What a refusal that is not ignored must be like. The scan for its term, if there is one, starts
   * inside the log, and a leader's next index does not end beyond its log.
   */
  predicate InReach(n: Node, a: AppendArgs, r: AppendReply)
    requires |n.log| > 0
  {
    && (r.conflictTerm == NO_TERM || a.prevLogIndex <= n.LastIndex() || a.prevLogIndex < r.conflictIndex)
    && (n.role == Leader ==> r.conflictIndex <= n.LastIndex() + 1)
  }

  ghost predicate SoundRefusal(k: Cluster, step: Step)
    requires Possible(k, step)
  {
    var n := k.peers[step.server].node;
    match step
    case HandleAppendAnswer(_, m) =>
      m.appendReply.term <= n.term && !m.appendReply.success && n.matchIndex[m.from] < m.append.prevLogIndex ==>
        InReach(n, m.append, m.appendReply)
    case _ => true
  }
}
