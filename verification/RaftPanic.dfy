/** When a server indexes outside its log slice, and that it never does if its replies are sound. */
module RaftPanic {
  import opened RaftNode
  import opened RaftCluster
  import opened RaftClusterProof
  import opened RaftChosen
  import opened RaftCommit
  import opened RaftSafety
  import C = RaftCore

  /** A run in which, besides, every refusal that moves nextIndex leaves it in reach. */
  ghost predicate SteadyRun(states: seq<Cluster>, steps: seq<Step>) {
    && SoundRun(states, steps)
    && forall i: nat {:trigger SteadyAt(states, steps, i)} :: i < |steps| ==> SteadyAt(states, steps, i)
  }

  ghost predicate SteadyAt(states: seq<Cluster>, steps: seq<Step>, i: nat)
    requires |states| == |steps| + 1 && i < |steps|
  {
    SoundAt(states, steps, i) && SoundRefusal(states[i], steps[i])
  }

  // ----- a leader's next indexes stay within reach of its log -----

  ghost predicate ProbesOk(s: nat, n: Node) {
    n.role == Leader ==>
      |n.log| > 0 && forall i: nat :: i < |n.nextIndex| && i != s ==> ProbeOk(n, n.nextIndex[i])
  }

  ghost predicate ProbeOk(n: Node, next: nat)
    requires |n.log| > 0
  {
    1 <= next <= n.LastIndex() + 1
  }

  ghost predicate AllProbesOk(k: Cluster) {
    forall s: nat :: s < |k.peers| ==> ProbesOk(s, k.peers[s].node)
  }

  /** What a success credits a leader's peer with is in the leader's log. */
  lemma CreditInLog(c: C.Core, s: nat, p: Peer, from: nat, a: AppendArgs)
    requires C.Inv(c) && s < c.n && PeerOk(c, s, p) && CommitPeer(c, s, p) && p.node.role == Leader
    requires from < c.n && AppendOk(c, a) && SafeCredit(p.node, s, from, a.term, a.prevLogIndex + |a.entries|)
    ensures a.prevLogIndex + |a.entries| <= p.node.LastIndex()
  {
    OpenPeer(c, s, p);
    LeaderHasReign(c, s, p.node);
  }

  lemma SnapshotInLog(c: C.Core, s: nat, p: Peer, a: SnapshotArgs)
    requires C.Inv(c) && s < c.n && PeerOk(c, s, p) && p.node.role == Leader && a.term <= p.node.term
    requires a.term in c.reigns && Chosen(c, c.LeaderLog(a.term), a.lastIncluded, a.term)
    ensures a.lastIncluded <= p.node.LastIndex()
  {
    LeaderHasReign(c, s, p.node);
    ChosenIsOlder(c, a.term, p.node.term, a.lastIncluded);
  }

  lemma MatchedProbes(s: nat, n: Node, i: nat, index: nat)
    requires n.Valid(|n.nextIndex|) && i < |n.nextIndex| && ProbesOk(s, n) && n.lastIncluded <= n.commitIndex
    requires n.role == Leader && n.matchIndex[i] < index ==> index <= n.LastIndex()
    ensures Matched(n, s, i, index).Lives? && ProbesOk(s, Matched(n, s, i, index).value)
  {
    if n.matchIndex[i] < index {
      var n1 := n.(matchIndex := n.matchIndex[i := index], nextIndex := n.nextIndex[i := index + 1]);
      CommitFromFinds(n1, s, n1.LastIndex());
    }
  }

  /** A refusal is survived and leaves a leader's next index in reach if and only if it is in reach itself. */
  lemma RefusalIsExact(n: Node, s: nat, i: nat, a: AppendArgs, r: AppendReply)
    requires n.Valid(|n.nextIndex|) && i < |n.nextIndex| && r.term <= n.term && !r.success
    requires n.matchIndex[i] < a.prevLogIndex && (n.role == Leader ==> n.matchIndex[i] <= n.LastIndex())
    ensures var o := OnAppendReply(n, s, i, a, r);
      InReach(n, a, r) <==> o.Lives? && (n.role == Leader ==> ProbeOk(o.value, o.value.nextIndex[i]))
  {
    if a.prevLogIndex <= n.LastIndex() { BacktrackSpec(n, a.prevLogIndex, r.conflictIndex, r.conflictTerm); }
  }

  /** A send dies exactly when the next index is out of reach. */
  lemma SendIsExact(n: Node, s: nat, i: nat)
    requires n.Valid(|n.nextIndex|) && i < |n.nextIndex| && n.role == Leader && n.nextIndex[i] > 0
    ensures Send(n, s, i).Lives? <==> ProbeOk(n, n.nextIndex[i])
  {
  }

  lemma MatchInLog(c: C.Core, s: nat, p: Peer, i: nat)
    requires C.Inv(c) && s < c.n && PeerOk(c, s, p) && CommitPeer(c, s, p) && p.node.role == Leader && i < c.n && i != s
    ensures p.node.matchIndex[i] <= p.node.LastIndex()
  {
    OpenPeer(c, s, p);
    LeaderHasReign(c, s, p.node);
    assert CreditOk(c, s, p.node, i, p.node.matchIndex[i]);
  }

  lemma RefusedProbes(c: C.Core, s: nat, p: Peer, i: nat, a: AppendArgs, r: AppendReply)
    requires C.Inv(c) && s < c.n && PeerOk(c, s, p) && CommitPeer(c, s, p) && ProbesOk(s, p.node)
    requires i < c.n && i != s && r.term <= p.node.term && !r.success
    requires p.node.matchIndex[i] < a.prevLogIndex && InReach(p.node, a, r)
    ensures OnAppendReply(p.node, s, i, a, r).Lives? && ProbesOk(s, OnAppendReply(p.node, s, i, a, r).value)
  {
    if p.node.role == Leader { MatchInLog(c, s, p, i); }
    RefusalIsExact(p.node, s, i, a, r);
  }

  /** The refusal of a request of the leader's own term is always in reach. */
  lemma OwnRefusalsAreInReach(c: C.Core, s: nat, p: Peer, i: nat, a: AppendArgs, r: AppendReply)
    requires C.Inv(c) && s < c.n && PeerOk(c, s, p) && p.node.role == Leader
    requires i < c.n && i != s && a.term == p.node.term && r.term <= p.node.term && !r.success
    requires MessageOk(c, AppendAnswer(s, i, a, r)) && CommitMessage(c, AppendAnswer(s, i, a, r))
    ensures InReach(p.node, a, r)
  {
    LeaderHasReign(c, s, p.node);
  }

  lemma AppendAnswerProbes(k: Cluster, s: nat, m: Message)
    requires CommitInv(k) && AllProbesOk(k) && Possible(k, HandleAppendAnswer(s, m))
    requires SoundReply(k, HandleAppendAnswer(s, m)) && SoundRefusal(k, HandleAppendAnswer(s, m))
    requires m.appendReply.term <= k.peers[s].node.term
    ensures var o := OnAppendReply(k.peers[s].node, s, m.from, m.append, m.appendReply); o.Lives? && ProbesOk(s, o.value)
  {
    assert PeerOk(k.core, s, k.peers[s]) && CommitPeer(k.core, s, k.peers[s]) && ProbesOk(s, k.peers[s].node);
    assert MessageOk(k.core, m) && CommitMessage(k.core, m);
    AnswerProbes(k.core, s, k.peers[s], m.from, m.append, m.appendReply);
  }

  lemma AnswerProbes(c: C.Core, s: nat, p: Peer, i: nat, a: AppendArgs, r: AppendReply)
    requires C.Inv(c) && s < c.n && PeerOk(c, s, p) && CommitPeer(c, s, p) && ProbesOk(s, p.node) && r.term <= p.node.term
    requires MessageOk(c, AppendAnswer(s, i, a, r)) && CommitMessage(c, AppendAnswer(s, i, a, r))
    requires r.success && p.node.matchIndex[i] < a.prevLogIndex + |a.entries| ==>
      SafeCredit(p.node, s, i, a.term, a.prevLogIndex + |a.entries|)
    requires !r.success && p.node.matchIndex[i] < a.prevLogIndex ==> InReach(p.node, a, r)
    ensures OnAppendReply(p.node, s, i, a, r).Lives? && ProbesOk(s, OnAppendReply(p.node, s, i, a, r).value)
  {
    if r.success {
      AcceptedProbes(c, s, p, i, a);
    } else if p.node.matchIndex[i] < a.prevLogIndex {
      RefusedProbes(c, s, p, i, a, r);
    }
  }

  lemma AcceptedProbes(c: C.Core, s: nat, p: Peer, i: nat, a: AppendArgs)
    requires C.Inv(c) && s < c.n && PeerOk(c, s, p) && CommitPeer(c, s, p) && ProbesOk(s, p.node)
    requires i < c.n && i != s && AppendOk(c, a)
    requires p.node.matchIndex[i] < a.prevLogIndex + |a.entries| ==>
      SafeCredit(p.node, s, i, a.term, a.prevLogIndex + |a.entries|)
    ensures var o := Matched(p.node, s, i, a.prevLogIndex + |a.entries|); o.Lives? && ProbesOk(s, o.value)
  {
    AcceptedInLog(c, s, p, i, a);
    MatchedProbes(s, p.node, i, a.prevLogIndex + |a.entries|);
  }

  lemma AcceptedInLog(c: C.Core, s: nat, p: Peer, i: nat, a: AppendArgs)
    requires C.Inv(c) && s < c.n && PeerOk(c, s, p) && CommitPeer(c, s, p) && i < c.n && i != s && AppendOk(c, a)
    requires p.node.matchIndex[i] < a.prevLogIndex + |a.entries| ==>
      SafeCredit(p.node, s, i, a.term, a.prevLogIndex + |a.entries|)
    ensures var n, index := p.node, a.prevLogIndex + |a.entries|;
      n.lastIncluded <= n.commitIndex && (n.role == Leader && n.matchIndex[i] < index ==> index <= n.LastIndex())
  {
    OpenPeer(c, s, p);
    if p.node.role == Leader && p.node.matchIndex[i] < a.prevLogIndex + |a.entries| { CreditInLog(c, s, p, i, a); }
  }

  lemma InstallAnswerProbes(k: Cluster, s: nat, m: Message)
    requires CommitInv(k) && AllProbesOk(k) && Possible(k, HandleInstallAnswer(s, m))
    requires m.term <= k.peers[s].node.term
    ensures var o := OnSnapshotReply(k.peers[s].node, s, m.from, m.install, m.term); o.Lives? && ProbesOk(s, o.value)
  {
    var c, p := k.core, k.peers[s];
    assert PeerOk(c, s, p) && CommitPeer(c, s, p) && CommitMessage(c, m) && ProbesOk(s, p.node);
    OpenPeer(c, s, p);
    if p.node.role == Leader { SnapshotInLog(c, s, p, m.install); }
    MatchedProbes(s, p.node, m.from, m.install.lastIncluded);
  }

  /** A leader hears no other leader of its term, so its handlers leave its log alone. */
  lemma RequestProbes(k: Cluster, step: Step)
    requires CommitInv(k) && AllProbesOk(k) && Possible(k, step) && (step.HandleAppend? || step.HandleInstall?)
    ensures ProbesOk(step.server, Next(k, step).peers[step.server].node)
  {
    var c, s, p := k.core, step.server, k.peers[step.server];
    assert PeerOk(c, s, p) && MessageOk(c, step.msg) && ProbesOk(s, p.node);
    NextKeeps(k, step);
    assert PeerOk(Next(k, step).core, s, Next(k, step).peers[s]);
    if step.HandleAppend? {
      if p.node.term == step.msg.append.term { NotLeaderToo(c, s, p.node, step.msg.append.term, step.msg.append.leader); }
      AppendRole(p.node, step.msg.append);
    } else {
      if p.node.term == step.msg.install.term { NotLeaderToo(c, s, p.node, step.msg.install.term, step.msg.install.leader); }
      InstallRole(p.node, step.msg.install);
    }
  }

  lemma AppendRole(n: Node, a: AppendArgs)
    requires |n.log| > 0
    ensures OnAppendEntries(n, a).0 == n || OnAppendEntries(n, a).0.role != Leader || (n.role == Leader && n.term == a.term)
  {
  }

  lemma InstallRole(n: Node, a: SnapshotArgs)
    requires |n.log| > 0
    ensures OnInstallSnapshot(n, a).0 == n || OnInstallSnapshot(n, a).0.role != Leader || (n.role == Leader && n.term == a.term)
  {
  }

  /** The steps that send and receive nothing, or only votes. */
  lemma OtherProbes(k: Cluster, step: Step)
    requires AllProbesOk(k) && Possible(k, step)
    requires !step.HandleAppend? && !step.HandleInstall? && !step.HandleAppendAnswer? && !step.HandleInstallAnswer?
    ensures ProbesOk(step.server, Next(k, step).peers[step.server].node)
  {
    var s, p := step.server, k.peers[step.server];
    assert ProbesOk(s, p.node);
  }

  lemma ServerProbes(k: Cluster, step: Step)
    requires CommitInv(k) && AllProbesOk(k) && Possible(k, step) && SoundReply(k, step) && SoundRefusal(k, step)
    ensures ProbesOk(step.server, Next(k, step).peers[step.server].node)
  {
    var s, p := step.server, k.peers[step.server];
    assert ProbesOk(s, p.node);
    match step
    case HandleAppendAnswer(_, m) =>
      if m.appendReply.term <= p.node.term { AppendAnswerProbes(k, s, m); }
    case HandleInstallAnswer(_, m) =>
      if m.term <= p.node.term { InstallAnswerProbes(k, s, m); }
    case HandleAppend(_, _) => RequestProbes(k, step);
    case HandleInstall(_, _) => RequestProbes(k, step);
    case _ => OtherProbes(k, step);
  }

  ghost predicate OnlyServer(k: Cluster, k': Cluster, s: nat) {
    |k'.peers| == |k.peers| && forall j: nat :: j < |k.peers| && j != s ==> k'.peers[j] == k.peers[j]
  }

  lemma OthersStay(k: Cluster, step: Step)
    requires Possible(k, step)
    ensures OnlyServer(k, Next(k, step), step.server)
  {
  }

  lemma ProbesSpread(k: Cluster, k': Cluster, s: nat)
    requires AllProbesOk(k) && OnlyServer(k, k', s) && s < |k.peers| && ProbesOk(s, k'.peers[s].node)
    ensures AllProbesOk(k')
  {
    forall j: nat | j < |k.peers| && j != s ensures ProbesOk(j, k'.peers[j].node) {
      assert ProbesOk(j, k.peers[j].node);
    }
  }

  lemma StepProbes(k: Cluster, step: Step)
    requires CommitInv(k) && AllProbesOk(k) && Possible(k, step) && SoundReply(k, step) && SoundRefusal(k, step)
    ensures AllProbesOk(Next(k, step))
  {
    ServerProbes(k, step);
    OthersStay(k, step);
    ProbesSpread(k, Next(k, step), step.server);
  }

  lemma {:induction false} RunProbes(states: seq<Cluster>, steps: seq<Step>, i: nat)
    requires SteadyRun(states, steps) && i < |states|
    ensures AllProbesOk(states[i])
  {
    if i > 0 {
      RunProbes(states, steps, i - 1);
      SoundRunInv(states, steps, i - 1);
      assert SteadyAt(states, steps, i - 1);
      StepProbes(states[i - 1], steps[i - 1]);
    }
  }

  // ----- no panic -----

  /** A step other than a crash on which the Go process would die of an index out of range. */
  ghost predicate Panics(k: Cluster, step: Step)
    requires Possible(k, step)
  {
    var p := k.peers[step.server];
    match step
    case Replicate(s, i) => Send(p.node, s, i).Died?
    case HandleAppendAnswer(s, m) => OnAppendReply(p.node, s, m.from, m.append, m.appendReply).Died?
    case HandleInstallAnswer(s, m) => OnSnapshotReply(p.node, s, m.from, m.install, m.term).Died?
    case ServiceSnapshot(_) => OnSnapshot(p.node, p.journalIndex, p.journal).Died?
    case Take(_) => TakeMessage(p.node).Died?
    case _ => false
  }

  lemma SteadyRunsNeverPanic(states: seq<Cluster>, steps: seq<Step>, i: nat)
    requires SteadyRun(states, steps) && i < |steps|
    ensures Possible(states[i], steps[i]) && !Panics(states[i], steps[i])
  {
    SoundRunInv(states, steps, i);
    RunProbes(states, steps, i);
    assert SteadyAt(states, steps, i);
    NoPanic(states[i], steps[i]);
  }

  /**
   * The guard on refusals is exact. One that is not ignored is in reach if and only if the server
   * survives it and survives sending to that peer next. Refusals of a leader's own requests are.
   */
  lemma RefusalsExactly(states: seq<Cluster>, steps: seq<Step>, i: nat, s: nat, m: Message)
    requires SteadyRun(states, steps) && i < |states| && Possible(states[i], HandleAppendAnswer(s, m))
    requires m.appendReply.term <= states[i].peers[s].node.term && !m.appendReply.success
    requires states[i].peers[s].node.matchIndex[m.from] < m.append.prevLogIndex
    ensures var n := states[i].peers[s].node; var o := OnAppendReply(n, s, m.from, m.append, m.appendReply);
      && (InReach(n, m.append, m.appendReply) <==> o.Lives? && Send(o.value, s, m.from).Lives?)
      && (n.role == Leader && n.term == m.append.term ==> InReach(n, m.append, m.appendReply))
  {
    SoundRunInv(states, steps, i);
    assert PeerOk(states[i].core, s, states[i].peers[s]) && CommitPeer(states[i].core, s, states[i].peers[s]);
    assert MessageOk(states[i].core, m) && CommitMessage(states[i].core, m);
    RefusalExactly(states[i].core, s, states[i].peers[s], m.from, m.append, m.appendReply);
  }

  lemma RefusalExactly(c: C.Core, s: nat, p: Peer, i: nat, a: AppendArgs, r: AppendReply)
    requires C.Inv(c) && s < c.n && PeerOk(c, s, p) && CommitPeer(c, s, p) && r.term <= p.node.term && !r.success
    requires MessageOk(c, AppendAnswer(s, i, a, r)) && CommitMessage(c, AppendAnswer(s, i, a, r))
    requires p.node.matchIndex[i] < a.prevLogIndex
    ensures var n := p.node; var o := OnAppendReply(n, s, i, a, r);
      && (InReach(n, a, r) <==> o.Lives? && Send(o.value, s, i).Lives?)
      && (n.role == Leader && n.term == a.term ==> InReach(n, a, r))
  {
    var n := p.node;
    if n.role == Leader {
      MatchInLog(c, s, p, i);
      if n.term == a.term { OwnRefusalsAreInReach(c, s, p, i, a, r); }
    }
    RefusalIsExact(n, s, i, a, r);
    if OnAppendReply(n, s, i, a, r).Lives? && n.role == Leader { SendIsExact(OnAppendReply(n, s, i, a, r).value, s, i); }
  }

  lemma NoPanic(k: Cluster, step: Step)
    requires CommitInv(k) && AllProbesOk(k) && Possible(k, step) && SoundReply(k, step) && SoundRefusal(k, step)
    ensures !Panics(k, step)
  {
    var c, s, p := k.core, step.server, k.peers[step.server];
    assert PeerOk(c, s, p) && CommitPeer(c, s, p) && ProbesOk(s, p.node);
    match step
    case Replicate(_, i) =>
      if p.node.role == Leader { assert ProbeOk(p.node, p.node.nextIndex[i]); }
    case HandleAppendAnswer(_, m) =>
      if m.appendReply.term <= p.node.term { AppendAnswerProbes(k, s, m); }
    case HandleInstallAnswer(_, m) =>
      if m.term <= p.node.term { InstallAnswerProbes(k, s, m); }
    case ServiceSnapshot(_) => OpenPeer(c, s, p);
    case Take(_) =>
      OpenPeer(c, s, p);
      TakeOutcome(c.log[s], p);
    case _ =>
  }
}
