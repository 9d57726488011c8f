/** One Raft peer on values: what each lock-held section of raft.go makes of the peer's state.
    An index outside the log slice, on which the Go process dies, shows as `Died`. */
module RaftNode {
  import opened RaftLog

  datatype Role = Follower | Candidate | Leader

  /** A snapshot stands for the commands the service had executed when it took it: the state
      of any deterministic service is a function of these. */
  type Snapshot = seq<Command>

  const NOBODY: int := -1
  const NO_TERM: int := -1

  datatype Persisted = Persisted(term: nat, votedFor: int, log: Log, snapshotIndex: nat, snapshot: Snapshot)

  datatype Node = Node(
    term: nat,
    votedFor: int,
    log: Log,                // log[0] stands for lastIncluded
    snapshot: Snapshot,
    lastIncluded: nat,
    commitIndex: nat,
    lastApplied: nat,
    role: Role,
    nextIndex: seq<nat>,
    matchIndex: seq<nat>,
    snapshotPending: bool,
    disk: Persisted)
  {
    ghost predicate Valid(peers: nat) {
      |log| > 0 && |nextIndex| == peers && |matchIndex| == peers
    }

    function LastIndex(): nat
      requires |log| > 0
    {
      |log| - 1 + lastIncluded
    }

    predicate InLog(i: int) {
      lastIncluded <= i < lastIncluded + |log|
    }

    function TermAt(i: int): nat
      requires InLog(i)
    {
      log[i - lastIncluded].term
    }
  }

  datatype Outcome<+T> = Died | Lives(value: T)

  function Persist(n: Node): Node {
    n.(disk := Persisted(n.term, n.votedFor, n.log, n.lastIncluded, n.snapshot))
  }

  function Boot(peers: nat): Node {
    Node(0, NOBODY, [ROOT], [], 0, 0, 0, Follower, seq(peers, i => 0), seq(peers, i => 0), false,
         Persisted(0, NOBODY, [ROOT], 0, []))
  }

  /** Make and readPersist after a crash: only the persisted tuple survives. */
  function Restart(disk: Persisted, peers: nat): Node {
    Node(disk.term, disk.votedFor, disk.log, disk.snapshot, disk.snapshotIndex, disk.snapshotIndex,
         disk.snapshotIndex, Follower, seq(peers, i => 0), seq(peers, i => 0), false, disk)
  }

  function BecomeFollower(n: Node, term: nat): Node {
    Persist(n.(role := Follower, term := term, votedFor := NOBODY))
  }

  // ----- elections -----

  datatype VoteArgs = VoteArgs(term: nat, candidate: nat, lastLogIndex: nat, lastLogTerm: nat)
  datatype VoteReply = VoteReply(term: nat, granted: bool)

  function StartElection(n: Node, me: nat): (r: (Node, VoteArgs))
    requires |n.log| > 0
  {
    var n' := Persist(n.(term := n.term + 1, role := Candidate, votedFor := me));
    (n', VoteArgs(n'.term, me, n'.LastIndex(), LastTerm(n'.log)))
  }

  function OnRequestVote(n: Node, a: VoteArgs): (r: (Node, VoteReply))
    requires |n.log| > 0
  {
    var m := if n.term < a.term then BecomeFollower(n, a.term) else n;
    if a.term >= m.term && (m.votedFor == a.candidate || m.votedFor == NOBODY) then
      if a.lastLogTerm > LastTerm(m.log) || (a.lastLogTerm == LastTerm(m.log) && a.lastLogIndex >= m.LastIndex()) then
        (Persist(m.(votedFor := a.candidate, role := Follower)), VoteReply(m.term, true))
      else
        (m, VoteReply(0, false))
    else
      (m, VoteReply(m.term, false))
  }

  /** The closure variables of one election. */
  datatype Election = Election(votes: nat, won: bool)

  function OnVoteReply(n: Node, e: Election, peers: nat, r: VoteReply): (Node, Election)
    requires |n.log| > 0
  {
    if r.term > n.term then
      (BecomeFollower(n, r.term), e)
    else if r.granted && n.role == Candidate && r.term == n.term then
      if e.votes + 1 > peers / 2 && !e.won then
        (n.(role := Leader, nextIndex := seq(|n.nextIndex|, j => n.LastIndex() + 1),
            matchIndex := seq(|n.matchIndex|, j => 0)),
         Election(e.votes + 1, true))
      else
        (n, e.(votes := e.votes + 1))
    else
      (n, e)
  }

  // ----- log replication -----

  datatype AppendArgs = AppendArgs(
    term: nat, leader: nat, prevLogIndex: nat, prevLogTerm: nat, entries: Log, leaderCommit: nat)
  datatype AppendReply = AppendReply(term: nat, success: bool, conflictTerm: int, conflictIndex: nat)
  datatype SnapshotArgs = SnapshotArgs(
    term: nat, leader: nat, lastIncluded: nat, lastIncludedTerm: nat, data: Snapshot)

  function Propose(n: Node, command: Command): Node {
    if n.role == Leader then Persist(n.(log := n.log + [Entry(n.term, command)])) else n
  }

  /** How many of `entries` the log has, by term, from position `at` on. */
  function MatchLength(log: Log, at: nat, entries: Log): (k: nat)
    ensures k <= |entries| && at + k <= Max(at, |log|)
    decreases |entries|
  {
    if entries != [] && at < |log| && entries[0].term == log[at].term
    then 1 + MatchLength(log, at + 1, entries[1..]) else 0
  }

  /** The index after the last one, going down from `i`, that is compacted or of another term. */
  function ConflictStart(n: Node, i: nat, term: int): nat
    requires n.InLog(i)
    decreases i
  {
    if i > n.lastIncluded && n.TermAt(i) == term then ConflictStart(n, i - 1, term) else i + 1
  }

  /** Cut at the first entry of another term, append what is missing; nothing if all is there. */
  function Spliced(log: Log, at: nat, entries: Log): Log
    requires at <= |log|
  {
    var k := MatchLength(log, at, entries);
    if k < |entries| then log[..at + k] + entries[k..] else log
  }

  /** A follower that holds PrevLogIndex in the right term takes the entries over. */
  function TakeEntries(n: Node, a: AppendArgs): Node
    requires n.InLog(a.prevLogIndex) && |n.log| > 0
  {
    var at := a.prevLogIndex + 1 - n.lastIncluded;
    var m := if MatchLength(n.log, at, a.entries) < |a.entries|
             then Persist(n.(log := Spliced(n.log, at, a.entries))) else n;
    if a.leaderCommit > m.commitIndex then m.(commitIndex := Min(a.leaderCommit, m.LastIndex())) else m
  }

  /** The state in which the handler judges a request that is not of an old term. */
  function Heard(n: Node, term: nat): Node {
    if n.term < term then BecomeFollower(n, term)
    else if n.role == Candidate then n.(role := Follower)
    else n
  }

  /** The consistency check, for a request of the peer's own term. */
  function Judged(n: Node, a: AppendArgs): (r: (Node, AppendReply))
    requires |n.log| > 0
  {
    if a.prevLogIndex < n.lastIncluded then
      (n, AppendReply(n.term, false, NO_TERM, n.lastIncluded + 1))
    else if a.prevLogIndex > n.LastIndex() then
      (n, AppendReply(n.term, false, NO_TERM, n.LastIndex() + 1))
    else if a.prevLogTerm != n.TermAt(a.prevLogIndex) then
      var t := n.TermAt(a.prevLogIndex);
      (n, AppendReply(n.term, false, t, ConflictStart(n, a.prevLogIndex, t)))
    else
      (TakeEntries(n, a), AppendReply(n.term, true, 0, 0))
  }

  function OnAppendEntries(n: Node, a: AppendArgs): (r: (Node, AppendReply))
    requires |n.log| > 0
  {
    if n.term > a.term then (n, AppendReply(n.term, false, 0, 0)) else Judged(Heard(n, a.term), a)
  }

  function Compact(n: Node, index: nat, data: Snapshot): Node
    requires n.InLog(index)
  {
    n.(log := n.log[index - n.lastIncluded..], lastIncluded := index, snapshot := data)
  }

  /** The service hands over a snapshot of everything up to `index`. */
  function OnSnapshot(n: Node, index: nat, data: Snapshot): Outcome<Node> {
    if index <= n.lastIncluded then Lives(n)
    else if n.InLog(index) then Lives(Persist(Compact(n, index, data)))
    else Died
  }

  function AdoptSnapshot(n: Node, a: SnapshotArgs): Node
    requires |n.log| > 0 && n.lastIncluded < a.lastIncluded
  {
    if n.LastIndex() >= a.lastIncluded && n.TermAt(a.lastIncluded) == a.lastIncludedTerm then
      Compact(n, a.lastIncluded, a.data)
    else
      n.(log := [Entry(a.lastIncludedTerm, NoCommand)], lastIncluded := a.lastIncluded, snapshot := a.data)
  }

  /** A snapshot older than the peer's own is ignored. One beyond what the service has seen is
      also handed to the service. */
  function Installed(n: Node, a: SnapshotArgs): Node
    requires |n.log| > 0
  {
    if n.lastIncluded < a.lastIncluded then
      var k := AdoptSnapshot(n, a);
      Persist(if k.lastApplied < a.lastIncluded
              then k.(commitIndex := Max(a.lastIncluded, k.commitIndex), snapshotPending := true) else k)
    else n
  }

  /** Unlike AppendEntries, this leaves a candidate of the same term a candidate. */
  function HeardInstall(n: Node, term: nat): Node {
    if n.term < term then BecomeFollower(n, term) else n
  }

  function OnInstallSnapshot(n: Node, a: SnapshotArgs): (r: (Node, nat))
    requires |n.log| > 0
  {
    if n.term > a.term then (n, n.term)
    else (Installed(HeardInstall(n, a.term), a), a.term)
  }

  datatype Outgoing = Silent | Append(append: AppendArgs) | Install(install: SnapshotArgs)

  /** The first half of replicateToFollower: what the leader sends to peer i. */
  function Send(n: Node, me: nat, i: nat): Outcome<Outgoing>
    requires |n.log| > 0 && i < |n.nextIndex|
  {
    if n.role != Leader then Lives(Silent)
    else if n.lastIncluded >= n.nextIndex[i] then
      Lives(Install(SnapshotArgs(n.term, me, n.lastIncluded, n.log[0].term, n.snapshot)))
    else if !n.InLog(n.nextIndex[i] - 1) then Died
    else
      var next := n.nextIndex[i];
      Lives(Append(AppendArgs(n.term, me, next - 1, n.TermAt(next - 1), n.log[next - n.lastIncluded..], n.commitIndex)))
  }

  /** How many peers, the leader included, have `index` as far as matchIndex says. */
  function Holders(matchIndex: seq<nat>, me: nat, index: nat): nat {
    if matchIndex == [] then 1
    else
      var last := |matchIndex| - 1;
      Holders(matchIndex[..last], me, index) + (if last != me && matchIndex[last] >= index then 1 else 0)
  }

  function CommitFrom(n: Node, me: nat, index: nat): Outcome<nat>
    requires index < n.lastIncluded + |n.log|
    decreases index
  {
    if index <= n.commitIndex then Lives(n.commitIndex)
    else if !n.InLog(index) then Died
    else if n.TermAt(index) != n.term then Lives(n.commitIndex)
    else if Holders(n.matchIndex, me, index) > |n.matchIndex| / 2 then Lives(index)
    else CommitFrom(n, me, index - 1)
  }

  function AdvanceCommit(n: Node, me: nat): Outcome<Node>
    requires |n.log| > 0
  {
    match CommitFrom(n, me, n.LastIndex())
    case Died => Died
    case Lives(c) => Lives(n.(commitIndex := c))
  }

  function Matched(n: Node, me: nat, i: nat, index: nat): Outcome<Node>
    requires |n.log| > 0 && i < |n.nextIndex| && i < |n.matchIndex|
  {
    if n.matchIndex[i] >= index then Lives(n)
    else AdvanceCommit(n.(matchIndex := n.matchIndex[i := index], nextIndex := n.nextIndex[i := index + 1]), me)
  }

  /** The leader looks for the follower's conflicting term, from `j` down to `floor`. */
  function Backtrack(n: Node, j: int, floor: nat, term: int): Outcome<nat>
    decreases j + 1
  {
    if j < n.lastIncluded || j < floor then Lives(floor)
    else if !n.InLog(j) then Died
    else if n.TermAt(j) == term then Lives(j as nat + 1)
    else Backtrack(n, j - 1, floor, term)
  }

  function OnAppendReply(n: Node, me: nat, i: nat, a: AppendArgs, r: AppendReply): Outcome<Node>
    requires |n.log| > 0 && i < |n.nextIndex| && i < |n.matchIndex|
  {
    if r.term > n.term then Lives(BecomeFollower(n, r.term))
    else if r.success then Matched(n, me, i, a.prevLogIndex + |a.entries|)
    else if a.prevLogIndex <= n.matchIndex[i] then Lives(n)
    else
      var next := if r.conflictTerm == NO_TERM then Lives(r.conflictIndex)
                  else Backtrack(n, a.prevLogIndex, r.conflictIndex, r.conflictTerm);
      match next
      case Died => Died
      case Lives(k) => Lives(n.(nextIndex := n.nextIndex[i := Max(k, n.matchIndex[i] + 1)]))
  }

  function OnSnapshotReply(n: Node, me: nat, i: nat, a: SnapshotArgs, term: nat): Outcome<Node>
    requires |n.log| > 0 && i < |n.nextIndex| && i < |n.matchIndex|
  {
    if term > n.term then Lives(BecomeFollower(n, term))
    else Matched(n, me, i, a.lastIncluded)
  }

  // ----- the applier -----

  datatype ApplyMsg =
    | CommandMsg(index: nat, command: Command)
    | SnapshotMsg(index: nat, term: nat, data: Snapshot)

  datatype Taken = Nothing | Message(msg: ApplyMsg)

  function TakeMessage(n: Node): Outcome<(Node, Taken)>
    requires |n.log| > 0
  {
    if n.snapshotPending then
      Lives((n.(snapshotPending := false), Message(SnapshotMsg(n.lastIncluded, n.log[0].term, n.snapshot))))
    else if n.lastApplied < n.commitIndex then
      if n.InLog(n.lastApplied + 1) then
        Lives((n, Message(CommandMsg(n.lastApplied + 1, n.log[n.lastApplied + 1 - n.lastIncluded].command))))
      else Died
    else Lives((n, Nothing))
  }

  function FinishMessage(n: Node, msg: ApplyMsg): Node {
    match msg
    case CommandMsg(_, _) => n.(lastApplied := n.lastApplied + 1)
    case SnapshotMsg(index, _, _) => n.(lastApplied := index)
  }
}
