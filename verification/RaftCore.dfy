/** The history of a Raft cluster, without a network: who voted for whom with which log, which
    leader's log each term has, and how far each server has acknowledged it. Log matching and
    leader completeness are proved here; the cluster of peers is then shown to be one of these. */
module RaftCore {
  import opened RaftLog

  datatype Ballot = Ballot(candidate: nat, log: Log)

  datatype Reign = Reign(leader: nat, electors: set<nat>, log: Log)

  datatype Core = Core(
    n: nat,
    term: seq<nat>,
    log: seq<Log>,
    ballots: map<(nat, nat), Ballot>,
    reigns: map<nat, Reign>,
    acks: map<(nat, nat), nat>)
  {
    function BallotOf(s: nat, t: nat): Ballot
      requires (s, t) in ballots
    { ballots[(s, t)] }

    predicate Stands(s: nat, t: nat) { (s, t) in ballots && BallotOf(s, t).candidate == s }

    function LeaderLog(t: nat): Log
      requires t in reigns
    { reigns[t].log }

    function Acked(s: nat, t: nat): nat { if (s, t) in acks then acks[(s, t)] else 0 }

    predicate Quorum(q: set<nat>) {
      2 * |q| > n && forall s :: s in q ==> s < n
    }
  }

  // ----- the protocol -----

  datatype Event =
    | BumpTerm(server: nat, newTerm: nat)
    | Stand(server: nat)
    | Cast(server: nat, candidate: nat)
    | Win(server: nat, electors: set<nat>)
    | Propose(server: nat, command: Command)
    | Accept(server: nat, upTo: nat)

  predicate Enabled(c: Core, e: Event) {
    var s := e.server;
    s < c.n && s < |c.term| && s < |c.log| &&
    var t := c.term[s];
    match e
    case BumpTerm(_, newTerm) => newTerm > t
    case Stand(_) => true
    case Cast(_, cand) =>
      && cand < c.n
      && c.Stands(cand, t)
      && |c.BallotOf(cand, t).log| > 0 && |c.log[s]| > 0
      && (if (s, t) in c.ballots then c.BallotOf(s, t).candidate == cand
          else AtLeastAsRecent(LastTerm(c.BallotOf(cand, t).log), |c.BallotOf(cand, t).log| - 1, c.log[s]))
    case Win(_, q) =>
      && c.Quorum(q) && s in q
      && !(t in c.reigns && c.reigns[t].leader == s)
      && forall v :: v in q ==> (v, t) in c.ballots && c.BallotOf(v, t).candidate == s
    case Propose(_, _) => t in c.reigns && c.reigns[t].leader == s
    case Accept(_, m) => t in c.reigns && m < |c.LeaderLog(t)|
  }

  /** Truncate at the first conflict and append, seen on whole logs: either the leader's
      entries are all there already, or the log becomes the leader's log up to `m`. */
  function Merge(log: Log, leaderLog: Log, m: nat): Log
    requires m < |leaderLog|
  {
    if Agree(leaderLog, log, m + 1) then log else leaderLog[..m + 1]
  }

  function Apply(c: Core, e: Event): (c': Core)
    requires Enabled(c, e)
  {
    var s := e.server;
    var t := c.term[s];
    match e
    case BumpTerm(_, newTerm) => c.(term := c.term[s := newTerm])
    case Stand(_) =>
      c.(term := c.term[s := t + 1], ballots := c.ballots[(s, t + 1) := Ballot(s, c.log[s])])
    case Cast(_, cand) =>
      if (s, t) in c.ballots then c else c.(ballots := c.ballots[(s, t) := Ballot(cand, c.log[s])])
    case Win(_, q) =>
      c.(reigns := c.reigns[t := Reign(s, q, c.log[s])],
         acks := c.acks[(s, t) := Max(c.Acked(s, t), if |c.log[s]| == 0 then 0 else |c.log[s]| - 1)])
    case Propose(_, cmd) =>
      var l := c.log[s] + [Entry(t, cmd)];
      c.(log := c.log[s := l], reigns := c.reigns[t := c.reigns[t].(log := l)],
         acks := c.acks[(s, t) := |l| - 1])
    case Accept(_, m) =>
      c.(log := c.log[s := Merge(c.log[s], c.LeaderLog(t), m)],
         acks := c.acks[(s, t) := Max(c.Acked(s, t), m)])
  }

  predicate Init(c: Core) {
    && c.n > 0
    && c.term == seq(c.n, i => 0)
    && c.log == seq(c.n, i => [ROOT])
    && c.ballots == map[] && c.reigns == map[] && c.acks == map[]
  }

  // ----- the invariant -----

  /** Entry `k` of `log`, with everything before it, comes from the leader of its term. */
  ghost predicate FromLeader(reigns: map<nat, Reign>, log: Log, k: nat)
    requires k < |log|
  {
    log[k].term in reigns && Agree(log, reigns[log[k].term].log, k + 1)
  }

  ghost predicate LogOk(reigns: map<nat, Reign>, log: Log) {
    && |log| > 0 && log[0] == ROOT
    && forall k :: 1 <= k < |log| ==> FromLeader(reigns, log, k)
  }

  ghost predicate Shape(c: Core) {
    && c.n > 0 && |c.term| == c.n && |c.log| == c.n
    && (forall s: nat, t: nat :: (s, t) in c.ballots ==> s < c.n)
    && (forall t: nat :: t in c.reigns ==> c.reigns[t].leader < c.n)
  }

  ghost predicate LogsOk(c: Core)
    requires Shape(c)
  {
    forall s :: 0 <= s < c.n ==> LogOk(c.reigns, c.log[s]) && LastTerm(c.log[s]) <= c.term[s]
  }

  ghost predicate ReignOk(c: Core, t: nat)
    requires t in c.reigns
  {
    && LogOk(c.reigns, c.LeaderLog(t)) && Sorted(c.LeaderLog(t)) && LastTerm(c.LeaderLog(t)) <= t
  }

  ghost predicate ReignsOk(c: Core) {
    forall t: nat {:trigger ReignOk(c, t)} :: t in c.reigns ==> ReignOk(c, t)
  }

  ghost predicate ElectedOk(c: Core, t: nat)
    requires Shape(c) && t in c.reigns
  {
    var r := c.reigns[t];
    && c.Quorum(r.electors) && r.leader in r.electors
    && (forall v :: v in r.electors ==> (v, t) in c.ballots && c.BallotOf(v, t).candidate == r.leader)
    && (c.term[r.leader] == t ==> c.log[r.leader] == r.log)
    && c.Acked(r.leader, t) + 1 >= |r.log|
  }

  ghost predicate AllElectedOk(c: Core)
    requires Shape(c)
  {
    forall t: nat {:trigger ElectedOk(c, t)} :: t in c.reigns ==> ElectedOk(c, t)
  }

  ghost predicate BallotOk(c: Core, s: nat, t: nat)
    requires Shape(c) && (s, t) in c.ballots
  {
    var b := c.BallotOf(s, t);
    && t <= c.term[s] && LogOk(c.reigns, b.log)
    && c.Stands(b.candidate, t) && |c.BallotOf(b.candidate, t).log| > 0
    && LastTerm(c.BallotOf(b.candidate, t).log) < t
    && AtLeastAsRecent(LastTerm(c.BallotOf(b.candidate, t).log), |c.BallotOf(b.candidate, t).log| - 1, b.log)
  }

  ghost predicate BallotsOk(c: Core)
    requires Shape(c)
  {
    forall s: nat, t: nat {:trigger BallotOk(c, s, t)} :: (s, t) in c.ballots ==> BallotOk(c, s, t)
  }

  /** Until somebody leads its term, a candidate keeps the log it stood with. */
  ghost predicate CandidatesOk(c: Core)
    requires Shape(c)
  {
    forall s: nat, t: nat :: c.Stands(s, t) && c.term[s] == t && t !in c.reigns ==> c.log[s] == c.BallotOf(s, t).log
  }

  ghost predicate AcksOk(c: Core)
    requires Shape(c)
  {
    forall s: nat, t: nat :: (s, t) in c.acks ==>
      && s < c.n && t <= c.term[s] && t in c.reigns && c.Acked(s, t) < |c.LeaderLog(t)|
  }

  /** Entry (t, k) can no longer be acknowledged by a quorum: enough servers left term t first. */
  ghost predicate RejectedBy(c: Core, t: nat, k: nat, q: set<nat>)
    requires Shape(c)
  {
    c.Quorum(q) && forall s :: s in q ==> c.term[s] > t && c.Acked(s, t) < k
  }

  ghost predicate Rejected(c: Core, t: nat, k: nat)
    requires Shape(c)
  {
    exists q :: RejectedBy(c, t, k, q)
  }

  /** Entry k of the leader of term t was appended in that very term. */
  ghost predicate Own(reigns: map<nat, Reign>, t: nat, k: nat) {
    t in reigns && 1 <= k < |reigns[t].log| && reigns[t].log[k].term == t
  }

  /** `log` has the prefix of the leader of t that ends in k, or no quorum can ever acknowledge it. */
  ghost predicate Holds(c: Core, log: Log, t: nat, k: nat)
    requires Shape(c) && Own(c.reigns, t, k)
  {
    Agree(log, c.LeaderLog(t), k + 1) || Rejected(c, t, k)
  }

  ghost predicate LeadersHold(c: Core)
    requires Shape(c)
  {
    forall t: nat, k: nat, u: nat :: Own(c.reigns, t, k) && u in c.reigns && t < u ==> Holds(c, c.LeaderLog(u), t, k)
  }

  ghost predicate ServersHold(c: Core)
    requires Shape(c)
  {
    forall t: nat, k: nat, s: nat :: Own(c.reigns, t, k) && s < c.n && k <= c.Acked(s, t) ==> Holds(c, c.log[s], t, k)
  }

  ghost predicate BallotsHold(c: Core)
    requires Shape(c)
  {
    forall t: nat, k: nat, s: nat, u: nat :: Own(c.reigns, t, k) && (s, u) in c.ballots && t < u && k <= c.Acked(s, t)
      ==> Holds(c, c.BallotOf(s, u).log, t, k)
  }

  ghost predicate Inv(c: Core) {
    && Shape(c)
    && LogsOk(c) && ReignsOk(c) && AllElectedOk(c) && BallotsOk(c) && CandidatesOk(c) && AcksOk(c)
    && LeadersHold(c) && ServersHold(c) && BallotsHold(c)
  }

  lemma InitInv(c: Core)
    requires Init(c)
    ensures Inv(c)
  {
  }

  // ----- growth: what every step keeps of the history -----

  /** The leader of term t has only added entries to its log, all of its own term. */
  ghost predicate Adds(t: nat, log: Log, log': Log) {
    log <= log' && forall k :: |log| <= k < |log'| ==> log'[k].term == t
  }

  ghost predicate Grows(c: Core, c': Core) {
    && Shape(c) && Shape(c') && c'.n == c.n
    && (forall s: nat :: s < c.n ==> c.term[s] <= c'.term[s])
    && (forall s: nat, t: nat :: (s, t) in c.ballots ==> (s, t) in c'.ballots && c'.BallotOf(s, t) == c.BallotOf(s, t))
    && (forall t: nat :: t in c.reigns ==>
          t in c'.reigns && c'.reigns[t].leader == c.reigns[t].leader && Adds(t, c.LeaderLog(t), c'.LeaderLog(t)))
    && (forall s: nat, t: nat :: c.Acked(s, t) <= c'.Acked(s, t))
    && (forall s: nat, t: nat :: s < c.n && t < c.term[s] ==> c'.Acked(s, t) == c.Acked(s, t))
  }

  lemma QuorumsMeet(c: Core, a: set<nat>, b: set<nat>) returns (s: nat)
    requires c.Quorum(a) && c.Quorum(b)
    ensures s in a && s in b
  {
    BoundedSize(a + b, c.n);
    assert |a + b| + |a * b| == |a| + |b|;
    assert a * b != {};
    s :| s in a * b;
  }

  lemma BoundedSize(q: set<nat>, n: nat)
    requires forall s :: s in q ==> s < n
    ensures |q| <= n
  {
    if n > 0 {
      BoundedSize(q - {n - 1}, n - 1);
    }
  }

  /** At most one leader per term, on the history: a second majority would share a voter. */
  lemma OneWinner(c: Core, s: nat, q: set<nat>)
    requires Shape(c) && AllElectedOk(c) && Enabled(c, Win(s, q))
    ensures c.term[s] !in c.reigns
  {
    var t := c.term[s];
    if t in c.reigns {
      assert ElectedOk(c, t);
      var v := QuorumsMeet(c, q, c.reigns[t].electors);
    }
  }

  lemma BumpGrows(c: Core, s: nat, t: nat)
    requires Shape(c) && Enabled(c, BumpTerm(s, t))
    ensures Grows(c, Apply(c, BumpTerm(s, t)))
  {
  }

  lemma StandGrows(c: Core, s: nat)
    requires Shape(c) && BallotsOk(c) && Enabled(c, Stand(s))
    ensures Grows(c, Apply(c, Stand(s)))
  {
    assert (s, c.term[s] + 1) in c.ballots ==> BallotOk(c, s, c.term[s] + 1);
  }

  lemma CastGrows(c: Core, s: nat, cand: nat)
    requires Shape(c) && Enabled(c, Cast(s, cand))
    ensures Grows(c, Apply(c, Cast(s, cand)))
  {
  }

  lemma WinGrows(c: Core, s: nat, q: set<nat>)
    requires Shape(c) && AllElectedOk(c) && Enabled(c, Win(s, q))
    ensures Grows(c, Apply(c, Win(s, q)))
  {
    OneWinner(c, s, q);
  }

  lemma AcceptGrows(c: Core, s: nat, m: nat)
    requires Shape(c) && Enabled(c, Accept(s, m))
    ensures Grows(c, Apply(c, Accept(s, m)))
  {
  }

  lemma ProposeGrows(c: Core, s: nat, cmd: Command)
    requires Shape(c) && AllElectedOk(c) && AcksOk(c) && Enabled(c, Propose(s, cmd))
    ensures Grows(c, Apply(c, Propose(s, cmd)))
  {
    assert ElectedOk(c, c.term[s]);
    assert c.Acked(s, c.term[s]) < |c.log[s]| || c.Acked(s, c.term[s]) == 0;
  }

  lemma LogOkGrows(c: Core, c': Core, log: Log)
    requires Grows(c, c') && LogOk(c.reigns, log)
    ensures LogOk(c'.reigns, log)
  {
    forall k | 1 <= k < |log| ensures FromLeader(c'.reigns, log, k) {
      assert FromLeader(c.reigns, log, k);
      AgreeGrown(log, c.LeaderLog(log[k].term), c'.LeaderLog(log[k].term), k + 1);
    }
  }

  lemma RejectedGrows(c: Core, c': Core, t: nat, k: nat)
    requires Grows(c, c') && Rejected(c, t, k)
    ensures Rejected(c', t, k)
  {
    var q :| RejectedBy(c, t, k, q);
    assert RejectedBy(c', t, k, q);
  }

  lemma HoldsGrows(c: Core, c': Core, log: Log, log': Log, t: nat, k: nat)
    requires Grows(c, c') && Own(c.reigns, t, k) && Holds(c, log, t, k) && log <= log'
    ensures Own(c'.reigns, t, k) && Holds(c', log', t, k)
  {
    if Agree(log, c.LeaderLog(t), k + 1) {
      AgreeGrown(log, c.LeaderLog(t), c'.LeaderLog(t), k + 1);
      assert log'[..k + 1] == log[..k + 1];
    } else {
      RejectedGrows(c, c', t, k);
    }
  }
}
