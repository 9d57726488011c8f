/** The promises of Raft, for whole runs. */
module RaftSafety {
  import opened RaftLog
  import opened RaftNode
  import opened RaftCompaction
  import opened RaftCluster
  import opened RaftClusterProof
  import opened RaftChosen
  import opened RaftCommit
  import C = RaftCore
  import P = RaftCoreProof

  /** A run in which every credit that raises a matchIndex is safe. */
  ghost predicate SoundRun(states: seq<Cluster>, steps: seq<Step>) {
    && Run(states, steps)
    && forall i: nat {:trigger SoundAt(states, steps, i)} :: i < |steps| ==> SoundAt(states, steps, i)
  }

  ghost predicate SoundAt(states: seq<Cluster>, steps: seq<Step>, i: nat)
    requires |states| == |steps| + 1 && i < |steps|
  {
    Follows(states, steps, i) && SoundReply(states[i], steps[i])
  }

  lemma NextGrows(k: Cluster, step: Step)
    requires Inv(k) && Possible(k, step)
    ensures C.Grows(k.core, Next(k, step).core)
  {
    var s, p := step.server, k.peers[step.server];
    assert PeerOk(k.core, s, p);
    Unmoved(k.core, s);
    match step
    case Timeout(_) => P.DoEvolves(k.core, C.Stand(s));
    case HandleVote(_, m) => VotePeerOk(k.core, s, p, m.vote);
    case HandleVoteAnswer(_, m) => VoteAnswerGrows(k, s, m);
    case Client(_, command) => P.DoEvolves(k.core, C.Propose(s, command));
    case HandleAppend(_, m) => AppendPeerOk(k.core, s, p, m.append);
    case HandleAppendAnswer(_, m) => RaiseOk(k.core, s, m.appendReply.term);
    case HandleInstall(_, m) => InstallPeerOk(k.core, s, p, m.install);
    case HandleInstallAnswer(_, m) => RaiseOk(k.core, s, m.term);
    case _ =>
  }

  lemma VoteAnswerGrows(k: Cluster, s: nat, m: Message)
    requires Inv(k) && Possible(k, HandleVoteAnswer(s, m))
    ensures C.Grows(k.core, AfterVoteAnswer(k, s, m.from, m.voteReply).core)
  {
    var p := k.peers[s];
    assert PeerOk(k.core, s, p);
    Unmoved(k.core, s);
    RaiseOk(k.core, s, m.voteReply.term);
    if Counts(p.node, m.voteReply) { CountOk(k.core, s, p, m.from, m.asked, m.voteReply); }
  }

  lemma {:induction false} RunInv(states: seq<Cluster>, steps: seq<Step>, i: nat)
    requires Run(states, steps) && i < |states|
    ensures Inv(states[i])
  {
    if i == 0 {
      InitKeeps(states[0]);
    } else {
      RunInv(states, steps, i - 1);
      assert Follows(states, steps, i - 1);
      NextKeeps(states[i - 1], steps[i - 1]);
    }
  }

  lemma RunGrows(states: seq<Cluster>, steps: seq<Step>, i: nat, j: nat)
    requires Run(states, steps) && i <= j < |states|
    ensures C.Grows(states[i].core, states[j].core)
  {
    forall k: nat | k < |states| ensures C.Shape(states[k].core) {
      ShapeAt(states, steps, k);
    }
    forall k: nat | k + 1 < |states| ensures Grew(states, k) {
      StepGrows(states, steps, k);
    }
    ChainGrows(states, i, j);
  }

  ghost predicate Grew(states: seq<Cluster>, k: nat)
    requires k + 1 < |states|
  {
    C.Grows(states[k].core, states[k + 1].core)
  }

  lemma {:induction false} ChainGrows(states: seq<Cluster>, i: nat, j: nat)
    requires i <= j < |states|
    requires forall k: nat :: k < |states| ==> C.Shape(states[k].core)
    requires forall k: nat :: k + 1 < |states| ==> Grew(states, k)
    ensures C.Grows(states[i].core, states[j].core)
    decreases j
  {
    if i < j {
      ChainGrows(states, i, j - 1);
      assert Grew(states, j - 1);
      P.GrowsTwice(states[i].core, states[j - 1].core, states[j].core);
    }
  }

  lemma StepGrows(states: seq<Cluster>, steps: seq<Step>, i: nat)
    requires Run(states, steps) && i < |steps|
    ensures C.Grows(states[i].core, states[i + 1].core)
  {
    RunInv(states, steps, i);
    assert Follows(states, steps, i);
    NextGrows(states[i], steps[i]);
  }

  lemma CoreInvAt(states: seq<Cluster>, steps: seq<Step>, i: nat)
    requires Run(states, steps) && i < |states|
    ensures C.Inv(states[i].core)
  {
    RunInv(states, steps, i);
  }

  lemma ShapeAt(states: seq<Cluster>, steps: seq<Step>, i: nat)
    requires Run(states, steps) && i < |states|
    ensures C.Shape(states[i].core)
  {
    RunInv(states, steps, i);
  }

  /** Every server's log is a compaction of its full log, which is made of leaders' entries. */
  lemma LogAt(states: seq<Cluster>, steps: seq<Step>, i: nat, s: nat)
    requires Run(states, steps) && i < |states| && s < |states[i].peers|
    ensures s < |states[i].core.log| && C.LogOk(states[i].core.reigns, states[i].core.log[s])
    ensures Compacts(states[i].peers[s].node.log, states[i].peers[s].node.lastIncluded, states[i].core.log[s])
  {
    RunInv(states, steps, i);
    assert PeerOk(states[i].core, s, states[i].peers[s]);
  }

  lemma {:induction false} SoundRunInv(states: seq<Cluster>, steps: seq<Step>, i: nat)
    requires SoundRun(states, steps) && i < |states|
    ensures CommitInv(states[i])
  {
    if i == 0 {
      InitCommits(states[0]);
    } else {
      SoundRunInv(states, steps, i - 1);
      assert SoundAt(states, steps, i - 1);
      NextCommits(states[i - 1], steps[i - 1]);
    }
  }

  // ----- election safety and log matching: every run -----

  /** At most one leader per term, whenever each of the two held the office. */
  lemma ElectionSafety(states: seq<Cluster>, steps: seq<Step>, i: nat, j: nat, a: nat, b: nat)
    requires Run(states, steps) && i <= j < |states| && a < |states[i].peers| && b < |states[j].peers|
    requires states[i].peers[a].node.role == Leader && states[j].peers[b].node.role == Leader
    requires states[i].peers[a].node.term == states[j].peers[b].node.term
    ensures a == b
  {
    RunInv(states, steps, i);
    RunInv(states, steps, j);
    RunGrows(states, steps, i, j);
    assert PeerOk(states[i].core, a, states[i].peers[a]);
    assert PeerOk(states[j].core, b, states[j].peers[b]);
  }

  /** If two servers, now or at different times, hold entries of the same term at an index, they
      hold the same entry there and at every earlier index that both still have. */
  lemma LogMatching(states: seq<Cluster>, steps: seq<Step>, i: nat, j: nat, a: nat, b: nat, index: nat, m: nat)
    requires Run(states, steps) && i <= j < |states| && a < |states[i].peers| && b < |states[j].peers|
    requires var x := states[i].peers[a].node; var y := states[j].peers[b].node;
      && x.InLog(index) && y.InLog(index) && x.TermAt(index) == y.TermAt(index)
      && x.lastIncluded < m && y.lastIncluded < m <= index
    ensures var x := states[i].peers[a].node; var y := states[j].peers[b].node;
      x.InLog(m) && y.InLog(m) && x.log[m - x.lastIncluded] == y.log[m - y.lastIncluded]
  {
    var x, y := states[i].peers[a].node, states[j].peers[b].node;
    FullLogMatching(states, steps, i, j, a, b, index);
    LogAt(states, steps, i, a);
    LogAt(states, steps, j, b);
    CompactsAt(x.log, x.lastIncluded, states[i].core.log[a], m);
    CompactsAt(y.log, y.lastIncluded, states[j].core.log[b], m);
    AgreeAt(states[i].core.log[a], states[j].core.log[b], index + 1, m);
  }

  lemma FullLogMatching(states: seq<Cluster>, steps: seq<Step>, i: nat, j: nat, a: nat, b: nat, index: nat)
    requires Run(states, steps) && i <= j < |states| && a < |states[i].peers| && b < |states[j].peers|
    requires var x := states[i].peers[a].node; var y := states[j].peers[b].node;
      x.InLog(index) && y.InLog(index) && x.TermAt(index) == y.TermAt(index)
    ensures a < |states[i].core.log| && b < |states[j].core.log|
    ensures Agree(states[i].core.log[a], states[j].core.log[b], index + 1)
  {
    LogAt(states, steps, i, a);
    LogAt(states, steps, j, b);
    RunGrows(states, steps, i, j);
    var c, c' := states[i].core, states[j].core;
    var x, y := states[i].peers[a].node, states[j].peers[b].node;
    CompactsAt(x.log, x.lastIncluded, c.log[a], index);
    CompactsAt(y.log, y.lastIncluded, c'.log[b], index);
    C.LogOkGrows(c, c', c.log[a]);
    SameTermSamePrefix(c'.reigns, c.log[a], c'.log[b], index);
  }

  // ----- leader completeness and state machine safety: sound runs -----

  lemma PeerAt(states: seq<Cluster>, steps: seq<Step>, i: nat, s: nat)
    requires SoundRun(states, steps) && i < |states| && s < |states[i].peers|
    ensures var c := states[i].core; var p := states[i].peers[s];
      && s < |c.log| && |c.log[s]| > 0 && c.log[s][0] == ROOT && ServiceOk(c.log[s], p)
      && Chosen(c, c.log[s], p.node.commitIndex, p.node.term)
  {
    SoundRunInv(states, steps, i);
    RootFirst(states[i].core, s);
    OpenPeer(states[i].core, s, states[i].peers[s]);
  }

  /** What a server has as committed at time i is still chosen at time j. */
  lemma ChosenLater(states: seq<Cluster>, steps: seq<Step>, i: nat, j: nat, s: nat)
    requires SoundRun(states, steps) && i <= j < |states| && s < |states[i].peers|
    ensures var log := states[i].core.log; var n := states[i].peers[s].node;
      && s < |log| && |log[s]| > 0 && log[s][0] == ROOT
      && Chosen(states[j].core, log[s], n.commitIndex, n.term)
  {
    PeerAt(states, steps, i, s);
    RunGrows(states, steps, i, j);
    var log, n := states[i].core.log[s], states[i].peers[s].node;
    Whole(log, n.commitIndex);
    ChosenGrows(states[i].core, states[j].core, log, log, n.commitIndex, n.term, n.term);
  }

  /** What one server has as committed, another has too, in the same place, up to the other's commit index. */
  lemma CommittedPrefixesAgree(states: seq<Cluster>, steps: seq<Step>, i: nat, j: nat, a: nat, b: nat)
    requires SoundRun(states, steps) && i <= j < |states| && a < |states[i].peers| && b < |states[j].peers|
    ensures a < |states[i].core.log| && b < |states[j].core.log|
    ensures Agree(states[i].core.log[a], states[j].core.log[b],
                  Min(states[i].peers[a].node.commitIndex, states[j].peers[b].node.commitIndex) + 1)
  {
    ChosenLater(states, steps, i, j, a);
    ChosenLater(states, steps, j, j, b);
    CoreInvAt(states, steps, j);
    var n, m := states[i].peers[a].node, states[j].peers[b].node;
    ChosenAgree(states[j].core, states[i].core.log[a], n.commitIndex, n.term,
                states[j].core.log[b], m.commitIndex, m.term);
  }

  /**
   * Leader completeness: what any server ever has as committed is in the uncompacted log of every
   * leader of a later term, even of one that led before the server committed it, and of every leader
   * of the server's own term from then on.
   */
  lemma LeadersAreComplete(states: seq<Cluster>, steps: seq<Step>, i: nat, j: nat, s: nat, leader: nat)
    requires SoundRun(states, steps) && i < |states| && j < |states| && s < |states[i].peers| && leader < |states[j].peers|
    requires states[j].peers[leader].node.role == Leader
    requires states[i].peers[s].node.term < states[j].peers[leader].node.term ||
             (states[i].peers[s].node.term == states[j].peers[leader].node.term && i <= j)
    ensures s < |states[i].core.log| && leader < |states[j].core.log|
    ensures Agree(states[i].core.log[s], states[j].core.log[leader], states[i].peers[s].node.commitIndex + 1)
  {
    if i <= j {
      LaterLeaders(states, steps, i, j, s, leader);
    } else {
      EarlierLeaders(states, steps, i, j, s, leader);
    }
  }

  lemma LaterLeaders(states: seq<Cluster>, steps: seq<Step>, i: nat, j: nat, s: nat, leader: nat)
    requires SoundRun(states, steps) && i <= j < |states| && s < |states[i].peers| && leader < |states[j].peers|
    requires states[j].peers[leader].node.role == Leader
    requires states[i].peers[s].node.term <= states[j].peers[leader].node.term
    ensures s < |states[i].core.log| && leader < |states[j].core.log|
    ensures Agree(states[i].core.log[s], states[j].core.log[leader], states[i].peers[s].node.commitIndex + 1)
  {
    ChosenLater(states, steps, i, j, s);
    ReignAt(states, steps, j, leader);
    var n, l := states[i].peers[s].node, states[j].peers[leader].node;
    ChosenInLeader(states[j].core, states[i].core.log[s], n.commitIndex, n.term, l.term);
  }

  lemma EarlierLeaders(states: seq<Cluster>, steps: seq<Step>, i: nat, j: nat, s: nat, leader: nat)
    requires SoundRun(states, steps) && j <= i < |states| && s < |states[i].peers| && leader < |states[j].peers|
    requires states[j].peers[leader].node.role == Leader
    requires states[i].peers[s].node.term < states[j].peers[leader].node.term
    ensures s < |states[i].core.log| && leader < |states[j].core.log|
    ensures Agree(states[i].core.log[s], states[j].core.log[leader], states[i].peers[s].node.commitIndex + 1)
  {
    ReignAt(states, steps, j, leader);
    PeerAt(states, steps, i, s);
    OwnTermAt(states, steps, i, s);
    RunGrows(states, steps, j, i);
    var n, l := states[i].peers[s].node, states[j].peers[leader].node;
    AlreadyInLeader(states[j].core, states[i].core, states[i].core.log[s], n.commitIndex, n.term, l.term);
  }

  lemma OwnTermAt(states: seq<Cluster>, steps: seq<Step>, i: nat, s: nat)
    requires Run(states, steps) && i < |states| && s < |states[i].peers|
    ensures var c := states[i].core;
      C.Inv(c) && s < |c.log| && |c.log[s]| > 0 && Sorted(c.log[s]) && LastTerm(c.log[s]) <= states[i].peers[s].node.term
  {
    RunInv(states, steps, i);
    assert PeerOk(states[i].core, s, states[i].peers[s]);
    P.LogSorted(states[i].core, states[i].core.log[s]);
  }

  /** What is chosen in an older term was in the leader's log all along: it adds only its own entries. */
  lemma AlreadyInLeader(c: C.Core, c': C.Core, log: Log, m: nat, t: nat, u: nat)
    requires C.Grows(c, c') && C.Inv(c') && u in c.reigns && t < u && Chosen(c', log, m, t)
    requires |log| > 0 && log[0] == ROOT && Sorted(log) && LastTerm(log) <= t
    ensures Agree(log, c.LeaderLog(u), m + 1)
  {
    ChosenInLeader(c', log, m, t, u);
    AgreeAt(log, c'.LeaderLog(u), m + 1, m);
    assert m < |log| - 1 ==> NotAfter(log, m, |log| - 1);
    assert c'.LeaderLog(u)[..m + 1] == c.LeaderLog(u)[..m + 1];
  }

  lemma ReignAt(states: seq<Cluster>, steps: seq<Step>, j: nat, leader: nat)
    requires Run(states, steps) && j < |states| && leader < |states[j].peers|
    requires states[j].peers[leader].node.role == Leader
    ensures var c := states[j].core; var t := states[j].peers[leader].node.term;
      C.Inv(c) && leader < |c.log| && t in c.reigns && c.LeaderLog(t) == c.log[leader]
  {
    RunInv(states, steps, j);
    assert PeerOk(states[j].core, leader, states[j].peers[leader]);
    LeaderHasReign(states[j].core, leader, states[j].peers[leader].node);
  }

  /** State machine safety: no two services are ever given different commands for one index. */
  lemma StateMachineSafety(states: seq<Cluster>, steps: seq<Step>, i: nat, index: nat, x: Command, y: Command)
    requires SoundRun(states, steps) && i < |states|
    requires (index, x) in states[i].outputs && (index, y) in states[i].outputs
    ensures x == y
  {
    SoundRunInv(states, steps, i);
    AgreedOnce(states[i].core, index, x, y);
  }

  lemma {:induction false} CommandsPrefix(a: Log, b: Log, i: nat, j: nat)
    requires i <= j < |b| && Agree(a, b, i + 1)
    ensures |Commands(a, i)| == i && Commands(a, i) <= Commands(b, j)
    decreases j
  {
    if i == j {
      CommandsAgree(a, b, i);
      if i > 0 {
        AgreeShorter(a, b, i + 1, i);
        CommandsPrefix(a, b, i - 1, i - 1);
      }
    } else {
      CommandsPrefix(a, b, i, j - 1);
    }
  }

  /** Whatever way a service came to its state -- commands one by one, a snapshot from the leader,
      or a restart from its own -- it has executed as many commands as it counts, and of any two
      services, now or at different times, one has executed a prefix of what the other has. */
  lemma ServicesAgree(states: seq<Cluster>, steps: seq<Step>, i: nat, j: nat, a: nat, b: nat)
    requires SoundRun(states, steps) && i <= j < |states| && a < |states[i].peers| && b < |states[j].peers|
    ensures var p := states[i].peers[a]; var q := states[j].peers[b];
      && |p.journal| == p.journalIndex && |q.journal| == q.journalIndex
      && (p.journal <= q.journal || q.journal <= p.journal)
  {
    PeerAt(states, steps, i, a);
    PeerAt(states, steps, j, b);
    CommittedPrefixesAgree(states, steps, i, j, a, b);
    JournalsAgree(states[i].core.log[a], states[j].core.log[b], states[i].peers[a], states[j].peers[b]);
  }

  lemma JournalsAgree(x: Log, y: Log, p: Peer, q: Peer)
    requires ServiceOk(x, p) && ServiceOk(y, q) && Agree(x, y, Min(p.node.commitIndex, q.node.commitIndex) + 1)
    ensures |p.journal| == p.journalIndex && |q.journal| == q.journalIndex
    ensures p.journal <= q.journal || q.journal <= p.journal
  {
    var m := Min(p.journalIndex, q.journalIndex);
    AgreeShorter(x, y, Min(p.node.commitIndex, q.node.commitIndex) + 1, m + 1);
    Whole(x, p.journalIndex);
    Whole(y, q.journalIndex);
    CommandsPrefix(x, x, p.journalIndex, p.journalIndex);
    CommandsPrefix(y, y, q.journalIndex, q.journalIndex);
    if p.journalIndex <= q.journalIndex {
      CommandsPrefix(x, y, m, q.journalIndex);
    } else {
      CommandsPrefix(y, x, m, p.journalIndex);
    }
  }

  /** The applier's output has no gap and never goes back: a command is the next one, a snapshot is
      not behind what the service has, whatever handlers ran while the message was under way. */
  lemma ApplierInOrder(states: seq<Cluster>, steps: seq<Step>, i: nat, s: nat)
    requires SoundRun(states, steps) && i < |states| && s < |states[i].peers|
    requires states[i].peers[s].applier.Holding?
    ensures var p := states[i].peers[s];
      match p.applier.msg
      case CommandMsg(index, _) => index == p.journalIndex + 1
      case SnapshotMsg(index, _, data) => index >= p.journalIndex && |data| == index && p.journal <= data
  {
    PeerAt(states, steps, i, s);
    var p := states[i].peers[s];
    var full := states[i].core.log[s];
    Whole(full, p.node.commitIndex);
    if p.applier.msg.SnapshotMsg? {
      Whole(full, p.journalIndex);
      Whole(full, p.applier.msg.index);
      CommandsPrefix(full, full, p.journalIndex, p.applier.msg.index);
      CommandsPrefix(full, full, p.applier.msg.index, p.applier.msg.index);
    }
  }
}
