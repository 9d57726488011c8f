/** Entries that a majority acknowledged in the term of their leader are in every later leader's log. */
module RaftChosen {
  import opened RaftLog
  import opened RaftCore
  import RaftCoreProof

  ghost predicate AckedBy(c: Core, t: nat, k: nat, q: set<nat>) {
    c.Quorum(q) && forall s :: s in q ==> c.Acked(s, t) >= k
  }

  /** Entry k of the leader of term t, appended in that term, is on a majority in that term. */
  ghost predicate Committed(c: Core, t: nat, k: nat) {
    Own(c.reigns, t, k) && exists q :: AckedBy(c, t, k, q)
  }

  lemma CommittedNotRejected(c: Core, t: nat, k: nat)
    requires Shape(c) && Committed(c, t, k)
    ensures !Rejected(c, t, k)
  {
    var a :| AckedBy(c, t, k, a);
    forall q | c.Quorum(q) ensures !RejectedBy(c, t, k, q) {
      var s := QuorumsMeet(c, a, q);
    }
  }

  /** Leader completeness: what is committed in a term is in the log of every leader from then on. */
  lemma LeaderCompleteness(c: Core, t: nat, k: nat, u: nat)
    requires Inv(c) && Committed(c, t, k) && u in c.reigns && t <= u
    ensures Agree(c.LeaderLog(u), c.LeaderLog(t), k + 1)
  {
    CommittedNotRejected(c, t, k);
    assert t < u ==> Holds(c, c.LeaderLog(u), t, k);
  }

  ghost predicate ChosenBy(c: Core, log: Log, m: nat, bound: nat, t: nat, k: nat) {
    t <= bound && Committed(c, t, k) && m <= k && Agree(log, c.LeaderLog(t), m + 1)
  }

  /** The first m entries after the root of `log` are committed in some term up to `bound`. */
  ghost predicate Chosen(c: Core, log: Log, m: nat, bound: nat) {
    m < |log| && (m == 0 || exists t: nat, k: nat :: ChosenBy(c, log, m, bound, t, k))
  }

  lemma CommittedGrows(c: Core, c': Core, t: nat, k: nat)
    requires Grows(c, c') && Committed(c, t, k)
    ensures Committed(c', t, k)
  {
    var q :| AckedBy(c, t, k, q);
    assert AckedBy(c', t, k, q);
  }

  lemma ChosenGrows(c: Core, c': Core, log: Log, log': Log, m: nat, bound: nat, bound': nat)
    requires Grows(c, c') && Chosen(c, log, m, bound) && Agree(log', log, m + 1) && bound <= bound'
    ensures Chosen(c', log', m, bound')
  {
    if m > 0 {
      var t: nat, k: nat :| ChosenBy(c, log, m, bound, t, k);
      CommittedGrows(c, c', t, k);
      AgreeGrown(log, c.LeaderLog(t), c'.LeaderLog(t), m + 1);
      assert ChosenBy(c', log', m, bound', t, k);
    }
  }

  lemma ChosenShorter(c: Core, log: Log, m: nat, bound: nat, m': nat)
    requires Chosen(c, log, m, bound) && m' <= m
    ensures Chosen(c, log, m', bound)
  {
    if m' > 0 {
      var t: nat, k: nat :| ChosenBy(c, log, m, bound, t, k);
      AgreeShorter(log, c.LeaderLog(t), m + 1, m' + 1);
      assert ChosenBy(c, log, m', bound, t, k);
    }
  }

  /** Every later leader has what is chosen. */
  lemma ChosenInLeader(c: Core, log: Log, m: nat, bound: nat, u: nat)
    requires Inv(c) && Chosen(c, log, m, bound) && log[0] == ROOT && u in c.reigns && bound <= u
    ensures Agree(log, c.LeaderLog(u), m + 1)
  {
    if m == 0 {
      assert ReignOk(c, u);
      assert log[..1] == [ROOT] == c.LeaderLog(u)[..1];
    } else {
      var t: nat, k: nat :| ChosenBy(c, log, m, bound, t, k);
      LeaderCompleteness(c, t, k, u);
      AgreeShorter(c.LeaderLog(u), c.LeaderLog(t), k + 1, m + 1);
    }
  }

  /** Taking over a leader's entries keeps what is chosen. */
  lemma ChosenSurvivesMerge(c: Core, log: Log, m: nat, bound: nat, u: nat, upTo: nat)
    requires Inv(c) && Chosen(c, log, m, bound) && log[0] == ROOT && u in c.reigns && bound <= u
    requires upTo < |c.LeaderLog(u)|
    ensures Agree(Merge(log, c.LeaderLog(u), upTo), log, m + 1)
  {
    ChosenInLeader(c, log, m, bound, u);
    RaftCoreProof.MergeKeeps(log, c.LeaderLog(u), upTo, log, m + 1);
  }

  /** State machine safety on logs: two chosen prefixes never differ. */
  lemma ChosenAgree(c: Core, a: Log, i: nat, boundA: nat, b: Log, j: nat, boundB: nat)
    requires Inv(c) && Chosen(c, a, i, boundA) && Chosen(c, b, j, boundB) && a[0] == ROOT && b[0] == ROOT
    ensures Agree(a, b, if i < j then i + 1 else j + 1)
  {
    if i == 0 || j == 0 {
      assert a[..1] == [ROOT] == b[..1];
    } else {
      var t: nat, k: nat :| ChosenBy(c, a, i, boundA, t, k);
      var u: nat, l: nat :| ChosenBy(c, b, j, boundB, u, l);
      if t <= u {
        EarlierAgrees(c, a, i, t, k, b, j, u);
      } else {
        EarlierAgrees(c, b, j, u, l, a, i, t);
      }
    }
  }

  lemma EarlierAgrees(c: Core, a: Log, i: nat, t: nat, k: nat, b: Log, j: nat, u: nat)
    requires Inv(c) && Committed(c, t, k) && t <= u && u in c.reigns
    requires i <= k && Agree(a, c.LeaderLog(t), i + 1) && Agree(b, c.LeaderLog(u), j + 1)
    ensures Agree(a, b, if i < j then i + 1 else j + 1)
  {
    LeaderCompleteness(c, t, k, u);
    AgreeShorter(c.LeaderLog(u), c.LeaderLog(t), k + 1, i + 1);
    AgreeChain(a, c.LeaderLog(u), b, i + 1, j + 1);
  }

  /** Command cmd at index i is part of what is committed. */
  ghost predicate Agreed(c: Core, i: nat, cmd: Command) {
    exists t: nat, k: nat :: Committed(c, t, k) && 1 <= i <= k && c.LeaderLog(t)[i].command == cmd
  }

  lemma AgreedGrows(c: Core, c': Core, i: nat, cmd: Command)
    requires Grows(c, c') && Agreed(c, i, cmd)
    ensures Agreed(c', i, cmd)
  {
    var t: nat, k: nat :| Committed(c, t, k) && 1 <= i <= k && c.LeaderLog(t)[i].command == cmd;
    CommittedGrows(c, c', t, k);
  }

  lemma ChosenAgreed(c: Core, log: Log, m: nat, bound: nat, i: nat)
    requires Chosen(c, log, m, bound) && 1 <= i <= m
    ensures Agreed(c, i, log[i].command)
  {
    var t: nat, k: nat :| ChosenBy(c, log, m, bound, t, k);
    AgreeAt(log, c.LeaderLog(t), m + 1, i);
  }

  lemma AgreedOnce(c: Core, i: nat, x: Command, y: Command)
    requires Inv(c) && Agreed(c, i, x) && Agreed(c, i, y)
    ensures x == y
  {
    var t: nat, k: nat :| Committed(c, t, k) && 1 <= i <= k && c.LeaderLog(t)[i].command == x;
    var u: nat, l: nat :| Committed(c, u, l) && 1 <= i <= l && c.LeaderLog(u)[i].command == y;
    if t <= u {
      CommittedAt(c, t, k, u, i);
    } else {
      CommittedAt(c, u, l, t, i);
    }
  }

  lemma CommittedAt(c: Core, t: nat, k: nat, u: nat, i: nat)
    requires Inv(c) && Committed(c, t, k) && u in c.reigns && t <= u && i <= k
    ensures i < |c.LeaderLog(u)| && c.LeaderLog(u)[i] == c.LeaderLog(t)[i]
  {
    LeaderCompleteness(c, t, k, u);
    AgreeAt(c.LeaderLog(u), c.LeaderLog(t), k + 1, i);
  }
}
