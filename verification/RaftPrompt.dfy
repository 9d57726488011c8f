/**
 * Nothing is held back. In every sound run a leader has committed whatever matchIndex shows on a
 * majority, and what a server has committed it can hand to its service, without any other server.
 */
module RaftPrompt {
  import opened RaftLog
  import opened RaftNode
  import opened RaftCompaction
  import opened RaftCluster
  import opened RaftClusterProof
  import opened RaftCommit
  import opened RaftSafety
  import opened RaftPanic
  import opened RaftSteps
  import C = RaftCore

  // ----- a leader's commit index is up to date -----

  /** No count is outstanding; and nobody leads alone. */
  ghost predicate Prompt(s: nat, n: Node) {
    n.role == Leader ==> |n.matchIndex| >= 2 && NoMajority(n, s)
  }

  ghost predicate AllPrompt(k: Cluster) {
    forall s: nat :: s < |k.peers| ==> Prompt(s, k.peers[s].node)
  }

  /** The same counts, on a log that has lost only compacted entries. */
  lemma PromptStays(s: nat, n: Node, n': Node)
    requires Prompt(s, n) && n'.matchIndex == n.matchIndex && n'.term == n.term && n'.commitIndex == n.commitIndex
    requires n'.role == Leader ==> n.role == Leader
    requires forall j: int :: n'.InLog(j) ==> n.InLog(j) && n'.TermAt(j) == n.TermAt(j)
    ensures Prompt(s, n')
  {
    forall j: nat | n'.role == Leader && n'.commitIndex < j ensures !MajorityHeld(n', s, j) {
      assert !MajorityHeld(n, s, j);
    }
  }

  lemma NobodyHolds(m: seq<nat>, me: nat, index: nat)
    requires forall j: nat :: j < |m| && j != me ==> m[j] < index
    ensures Holders(m, me, index) == 1
  {
    HoldersExactly(m, me, index);
    assert (set j: nat | j < |m| && j != me && m[j] >= index) == {};
  }

  lemma NewLeaderPrompt(s: nat, n: Node)
    requires |n.matchIndex| >= 2 && n.matchIndex == seq(|n.matchIndex|, _ => 0)
    ensures Prompt(s, n)
  {
    forall j: nat | n.commitIndex < j ensures !MajorityHeld(n, s, j) {
      NobodyHolds(n.matchIndex, s, j);
    }
  }

  lemma ClientPrompt(c: C.Core, s: nat, p: Peer, command: Command)
    requires C.Inv(c) && s < c.n && PeerOk(c, s, p) && CommitPeer(c, s, p) && Prompt(s, p.node)
    ensures Prompt(s, Propose(p.node, command))
  {
    var n, n' := p.node, Propose(p.node, command);
    forall j: nat | n.role == Leader && n'.commitIndex < j ensures !MajorityHeld(n', s, j) {
      assert !MajorityHeld(n, s, j);
      if j == n'.LastIndex() {
        forall i: nat | i < |n.matchIndex| && i != s ensures n.matchIndex[i] < j { MatchInLog(c, s, p, i); }
        NobodyHolds(n.matchIndex, s, j);
      }
    }
  }

  lemma SnapshotPrompt(s: nat, n: Node, index: nat, data: Snapshot)
    requires Prompt(s, n) && OnSnapshot(n, index, data).Lives?
    ensures Prompt(s, OnSnapshot(n, index, data).value)
  {
    PromptStays(s, n, OnSnapshot(n, index, data).value);
  }

  /** After a count, nothing is outstanding. */
  lemma MatchedPrompt(c: C.Core, s: nat, n: Node, from: nat, index: nat)
    requires C.Inv(c) && s < c.n && NodeOk(c, s, n) && from < c.n && n.lastIncluded <= n.commitIndex && Prompt(s, n)
    ensures Matched(n, s, from, index).Lives? && Prompt(s, Matched(n, s, from, index).value)
  {
    if n.matchIndex[from] < index {
      var n1 := n.(matchIndex := n.matchIndex[from := index], nextIndex := n.nextIndex[from := index + 1]);
      AdvanceExactly(c, s, n, n1);
      var n' := n1.(commitIndex := CommitFrom(n1, s, n1.LastIndex()).value);
      forall j: nat | n'.commitIndex < j ensures !MajorityHeld(n', s, j) {
        BackedIsMajority(c.log[s], n1, s, j);
      }
    }
  }

  lemma AppendAnswerPrompt(c: C.Core, s: nat, n: Node, from: nat, a: AppendArgs, r: AppendReply)
    requires C.Inv(c) && s < c.n && NodeOk(c, s, n) && from < c.n && n.lastIncluded <= n.commitIndex && Prompt(s, n)
    ensures OnAppendReply(n, s, from, a, r).Lives? ==> Prompt(s, OnAppendReply(n, s, from, a, r).value)
  {
    if r.term <= n.term && r.success {
      MatchedPrompt(c, s, n, from, a.prevLogIndex + |a.entries|);
    } else if OnAppendReply(n, s, from, a, r).Lives? {
      if r.term <= n.term { PromptStays(s, n, OnAppendReply(n, s, from, a, r).value); }
    }
  }

  /** Requests of others leave a leader's log alone or end its office. */
  lemma RequestPrompt(k: Cluster, step: Step)
    requires CommitInv(k) && Possible(k, step) && (step.HandleAppend? || step.HandleInstall?)
    requires Prompt(step.server, k.peers[step.server].node)
    ensures Prompt(step.server, Next(k, step).peers[step.server].node)
  {
    var c, s, p := k.core, step.server, k.peers[step.server];
    assert PeerOk(c, s, p) && MessageOk(c, step.msg);
    if step.HandleAppend? {
      if p.node.term == step.msg.append.term { NotLeaderToo(c, s, p.node, step.msg.append.term, step.msg.append.leader); }
      AppendRole(p.node, step.msg.append);
    } else {
      if p.node.term == step.msg.install.term { NotLeaderToo(c, s, p.node, step.msg.install.term, step.msg.install.leader); }
      InstallRole(p.node, step.msg.install);
    }
  }

  lemma VotePrompt(s: nat, n: Node, a: VoteArgs)
    requires |n.log| > 0 && Prompt(s, n)
    ensures Prompt(s, OnRequestVote(n, a).0)
  {
  }

  lemma VoteAnswerPrompt(c: C.Core, s: nat, p: Peer, m: Message)
    requires C.Inv(c) && s < c.n && PeerOk(c, s, p) && Prompt(s, p.node)
    requires m.VoteAnswer? && m.to == s && MessageOk(c, m)
    ensures Prompt(s, OnVoteReply(p.node, p.election, c.n, m.voteReply).0)
  {
    var n' := OnVoteReply(p.node, p.election, c.n, m.voteReply).0;
    if n'.role == Leader && p.node.role != Leader { NewLeaderPrompt(s, n'); }
  }

  lemma SurvivePrompt(s: nat, p: Peer, peers: nat, o: Outcome<Node>)
    requires o.Lives? ==> Prompt(s, o.value)
    ensures Prompt(s, Survive(p, peers, o).node)
  {
  }

  /** Replies, and what clients and the service ask for. */
  lemma AskedPrompt(k: Cluster, step: Step)
    requires CommitInv(k) && Possible(k, step) && Prompt(step.server, k.peers[step.server].node)
    requires step.Client? || step.HandleAppendAnswer? || step.HandleInstallAnswer? || step.ServiceSnapshot?
    ensures Prompt(step.server, Next(k, step).peers[step.server].node)
  {
    var c, s, p, n := k.core, step.server, k.peers[step.server], |k.peers|;
    assert PeerOk(c, s, p) && CommitPeer(c, s, p);
    OpenPeer(c, s, p);
    match step
    case Client(_, command) => ClientPrompt(c, s, p, command);
    case HandleAppendAnswer(_, m) =>
      AppendAnswerPrompt(c, s, p.node, m.from, m.append, m.appendReply);
      SurvivePrompt(s, p, n, OnAppendReply(p.node, s, m.from, m.append, m.appendReply));
    case HandleInstallAnswer(_, m) =>
      if m.term <= p.node.term { MatchedPrompt(c, s, p.node, m.from, m.install.lastIncluded); }
      SurvivePrompt(s, p, n, OnSnapshotReply(p.node, s, m.from, m.install, m.term));
    case ServiceSnapshot(_) =>
      if OnSnapshot(p.node, p.journalIndex, p.journal).Lives? { SnapshotPrompt(s, p.node, p.journalIndex, p.journal); }
      SurvivePrompt(s, p, n, OnSnapshot(p.node, p.journalIndex, p.journal));
  }

  lemma ElectionPrompt(k: Cluster, step: Step)
    requires CommitInv(k) && Possible(k, step) && Prompt(step.server, k.peers[step.server].node)
    requires step.HandleVote? || step.HandleVoteAnswer?
    ensures Prompt(step.server, Next(k, step).peers[step.server].node)
  {
    var c, s, p := k.core, step.server, k.peers[step.server];
    assert PeerOk(c, s, p) && MessageOk(c, step.msg);
    if step.HandleVote? {
      VotePrompt(s, p.node, step.msg.vote);
    } else {
      VoteAnswerPrompt(c, s, p, step.msg);
    }
  }

  lemma ServerPrompt(k: Cluster, step: Step)
    requires CommitInv(k) && Possible(k, step) && Prompt(step.server, k.peers[step.server].node)
    ensures Prompt(step.server, Next(k, step).peers[step.server].node)
  {
    if step.HandleVote? || step.HandleVoteAnswer? {
      ElectionPrompt(k, step);
    } else if step.HandleAppend? || step.HandleInstall? {
      RequestPrompt(k, step);
    } else if step.Client? || step.HandleAppendAnswer? || step.HandleInstallAnswer? || step.ServiceSnapshot? {
      AskedPrompt(k, step);
    } else {
      QuietPrompt(k, step);
    }
  }

  lemma QuietPrompt(k: Cluster, step: Step)
    requires Possible(k, step) && Prompt(step.server, k.peers[step.server].node)
    requires step.Timeout? || step.Replicate? || step.Take? || step.Deliver? || step.Finish? || step.Crash?
    ensures Prompt(step.server, Next(k, step).peers[step.server].node)
  {
    var s := step.server;
    var n, n' := k.peers[s].node, Next(k, step).peers[s].node;
    if n'.role == Leader { PromptStays(s, n, n'); }
  }

  lemma {:induction false} RunPrompt(states: seq<Cluster>, steps: seq<Step>, i: nat)
    requires SoundRun(states, steps) && i < |states|
    ensures AllPrompt(states[i])
  {
    if i > 0 {
      RunPrompt(states, steps, i - 1);
      SoundRunInv(states, steps, i - 1);
      assert SoundAt(states, steps, i - 1);
      ServerPrompt(states[i - 1], steps[i - 1]);
      PromptSpreads(states[i - 1], steps[i - 1]);
    }
  }

  lemma PromptSpreads(k: Cluster, step: Step)
    requires AllPrompt(k) && Possible(k, step) && Prompt(step.server, Next(k, step).peers[step.server].node)
    ensures AllPrompt(Next(k, step))
  {
    OthersStay(k, step);
    var k' := Next(k, step);
    forall j: nat | j < |k'.peers| ensures Prompt(j, k'.peers[j].node) {
      if j != step.server { assert Prompt(j, k.peers[j].node); }
    }
  }

  /**
   * Prompt commit: at any time, whatever entry of its own term a leader's matchIndex shows on a
   * majority of the servers, itself included, the leader counts as committed.
   */
  lemma LeadersCommitPromptly(states: seq<Cluster>, steps: seq<Step>, i: nat, s: nat, index: nat)
    requires SoundRun(states, steps) && i < |states| && s < |states[i].peers| && s < |states[i].core.log|
    requires states[i].peers[s].node.role == Leader && Backed(states[i].core.log[s], states[i].peers[s].node, s, index)
    ensures index <= states[i].peers[s].node.commitIndex
  {
    RunPrompt(states, steps, i);
    ServerIn(states, steps, i, s);
    PeerAt(states, steps, i, s);
    var n := states[i].peers[s].node;
    assert Prompt(s, n);
    if index > n.commitIndex { BackedIsMajority(states[i].core.log[s], n, s, index); }
  }

  // ----- committed commands can be delivered -----

  lemma Continue(states: seq<Cluster>, steps: seq<Step>, step: Step) returns (states': seq<Cluster>, steps': seq<Step>)
    requires SoundRun(states, steps) && var k := states[|steps|]; Possible(k, step) && SoundReply(k, step)
    ensures SoundRun(states', steps') && states <= states' && steps' == steps + [step]
    ensures |states'| == |states| + 1 && states'[|steps'|] == Next(states[|steps|], step)
  {
    states', steps' := states + [Next(states[|steps|], step)], steps + [step];
    forall i: nat | i < |steps'| ensures SoundAt(states', steps', i) && Follows(states', steps', i) {
      if i < |steps| { assert SoundAt(states, steps, i); }
    }
  }

  /** Only this server acts, and only its applier. */
  ghost predicate OnlyApplies(steps: seq<Step>, steps': seq<Step>, s: nat) {
    steps <= steps' && forall i :: |steps| <= i < |steps'| ==> steps'[i] in {Take(s), Deliver(s), Finish(s)}
  }

  /** How many messages away the service is, at most, from what is committed. */
  ghost function Distance(p: Peer): nat {
    var pending := if p.node.snapshotPending then 3 else 0;
    pending + (if p.node.commitIndex < Target(p) then 0 else 3 * (p.node.commitIndex - Target(p))) +
    match p.applier case Idle => 0 case Holding(_) => 2 case Delivered(_) => 1
  }

  ghost function NextApply(p: Peer, s: nat): Step {
    match p.applier case Idle => Take(s) case Holding(_) => Deliver(s) case Delivered(_) => Finish(s)
  }

  /** The applier has a message in hand, or something to take. */
  ghost predicate HasWork(p: Peer) {
    !p.applier.Idle? || p.node.snapshotPending || p.journalIndex < p.node.commitIndex
  }

  ghost predicate ComesCloser(p: Peer, p': Peer) {
    p'.node.commitIndex == p.node.commitIndex && Distance(p') < Distance(p)
  }

  lemma Applied(k: Cluster, s: nat, full: Log)
    requires s < |k.peers| && var p := k.peers[s];
      p.node.Valid(|k.peers|) && ServiceOk(full, p) && Compacts(p.node.log, p.node.lastIncluded, full) && HasWork(p)
    ensures Possible(k, NextApply(k.peers[s], s))
    ensures var k' := Next(k, NextApply(k.peers[s], s));
      |k'.peers| == |k.peers| && k'.core == k.core && ComesCloser(k.peers[s], k'.peers[s])
  {
    if k.peers[s].applier.Idle? { TakeExactly(full, k.peers[s]); }
  }

  lemma ApplyStep(states: seq<Cluster>, steps: seq<Step>, s: nat) returns (states': seq<Cluster>, steps': seq<Step>)
    requires SoundRun(states, steps) && s < |states[|steps|].peers| && HasWork(states[|steps|].peers[s])
    ensures SoundRun(states', steps') && states <= states' && OnlyApplies(steps, steps', s) && |states'| == |states| + 1
    ensures s < |states'[|steps'|].peers| && ComesCloser(states[|steps|].peers[s], states'[|steps'|].peers[s])
    ensures states'[|steps'|].core == states[|steps|].core
  {
    var k := states[|steps|];
    ServerIn(states, steps, |steps|, s);
    PeerAt(states, steps, |steps|, s);
    Applied(k, s, k.core.log[s]);
    states', steps' := Continue(states, steps, NextApply(k.peers[s], s));
  }

  /**
   * From every state of a sound run, a server that is left to itself can go on to hand its service
   * everything it has committed: the service then has executed exactly the commands of the log up to
   * the commit index.
   */
  lemma {:induction false} CommittedIsDelivered(states: seq<Cluster>, steps: seq<Step>, s: nat)
      returns (states': seq<Cluster>, steps': seq<Step>)
    requires SoundRun(states, steps) && s < |states[|steps|].peers|
    ensures SoundRun(states', steps') && states <= states' && OnlyApplies(steps, steps', s)
    ensures s < |states'[|steps'|].peers| && s < |states'[|steps'|].core.log|
    ensures var k' := states'[|steps'|]; var p' := k'.peers[s];
      && k'.core == states[|steps|].core
      && p'.journalIndex == p'.node.commitIndex == states[|steps|].peers[s].node.commitIndex < |k'.core.log[s]|
      && p'.journal == Commands(k'.core.log[s], p'.node.commitIndex)
    decreases Distance(states[|steps|].peers[s])
  {
    var p := states[|steps|].peers[s];
    PeerAt(states, steps, |steps|, s);
    if !HasWork(p) {
      states', steps' := states, steps;
    } else {
      var states1, steps1 := ApplyStep(states, steps, s);
      states', steps' := CommittedIsDelivered(states1, steps1, s);
    }
  }
}
