/** Every event of the history keeps its invariant, and nothing once recorded is taken back. */
module RaftCoreProof {
  import opened RaftLog
  import opened RaftCore

  lemma LogSorted(c: Core, log: Log)
    requires ReignsOk(c) && LogOk(c.reigns, log)
    ensures Sorted(log)
  {
    var k := |log| - 1;
    if k > 0 {
      assert FromLeader(c.reigns, log, k);
      var t := log[k].term;
      assert ReignOk(c, t);
      SortedPrefix(c.LeaderLog(t), k + 1);
      assert log == log[..k + 1];
    }
  }

  lemma LogOkPrefix(reigns: map<nat, Reign>, log: Log, m: nat)
    requires LogOk(reigns, log) && m < |log|
    ensures LogOk(reigns, log[..m + 1])
  {
    var p := log[..m + 1];
    forall k | 1 <= k < |p| ensures FromLeader(reigns, p, k) {
      assert FromLeader(reigns, log, k);
      assert p[..k + 1] == log[..k + 1];
    }
  }

  // ----- what stays when leaders, logs or acknowledgements do not change -----

  lemma LeadersHoldKept(c: Core, c': Core)
    requires Grows(c, c') && c'.reigns == c.reigns && LeadersHold(c)
    ensures LeadersHold(c')
  {
    forall t: nat, k: nat, u: nat | Own(c'.reigns, t, k) && u in c'.reigns && t < u
      ensures Holds(c', c'.LeaderLog(u), t, k)
    {
      HoldsGrows(c, c', c.LeaderLog(u), c.LeaderLog(u), t, k);
    }
  }

  lemma ServersHoldKept(c: Core, c': Core)
    requires Grows(c, c') && c'.reigns == c.reigns && c'.acks == c.acks && c'.log == c.log && ServersHold(c)
    ensures ServersHold(c')
  {
    forall t: nat, k: nat, s: nat | Own(c'.reigns, t, k) && s < c'.n && k <= c'.Acked(s, t)
      ensures Holds(c', c'.log[s], t, k)
    {
      HoldsGrows(c, c', c.log[s], c.log[s], t, k);
    }
  }

  lemma BallotsHoldKept(c: Core, c': Core)
    requires Grows(c, c') && c'.reigns == c.reigns && c'.acks == c.acks && ServersHold(c) && BallotsHold(c)
    requires forall s: nat, u: nat :: (s, u) in c'.ballots ==>
               (s, u) in c.ballots || c'.BallotOf(s, u).log == c.log[s]
    ensures BallotsHold(c')
  {
    forall t: nat, k: nat, s: nat, u: nat |
      Own(c'.reigns, t, k) && (s, u) in c'.ballots && t < u && k <= c'.Acked(s, t)
      ensures Holds(c', c'.BallotOf(s, u).log, t, k)
    {
      var log := c'.BallotOf(s, u).log;
      assert Holds(c, log, t, k);
      HoldsGrows(c, c', log, log, t, k);
    }
  }

  // ----- BumpTerm, Stand, Cast -----

  lemma BumpInv(c: Core, s: nat, t: nat)
    requires Inv(c) && Enabled(c, BumpTerm(s, t))
    ensures Inv(Apply(c, BumpTerm(s, t)))
  {
    var c' := Apply(c, BumpTerm(s, t));
    BumpGrows(c, s, t);
    BumpShape(c, s, t);
    LeadersHoldKept(c, c');
    ServersHoldKept(c, c');
    BallotsHoldKept(c, c');
  }

  lemma BumpReigns(c: Core, s: nat, t: nat)
    requires Shape(c) && ReignsOk(c) && AllElectedOk(c) && BallotsOk(c) && Enabled(c, BumpTerm(s, t))
    ensures var c' := Apply(c, BumpTerm(s, t)); Shape(c') && ReignsOk(c') && AllElectedOk(c')
  {
    var c' := Apply(c, BumpTerm(s, t));
    forall u: nat | u in c'.reigns ensures ReignOk(c', u) && ElectedOk(c', u) {
      assert ReignOk(c, u) && ElectedOk(c, u);
      if c.reigns[u].leader == s { assert BallotOk(c, s, u); }
    }
  }

  lemma BumpShape(c: Core, s: nat, t: nat)
    requires Shape(c) && LogsOk(c) && ReignsOk(c) && AllElectedOk(c) && BallotsOk(c) && CandidatesOk(c) && AcksOk(c)
    requires Enabled(c, BumpTerm(s, t))
    ensures var c' := Apply(c, BumpTerm(s, t));
      Shape(c') && LogsOk(c') && ReignsOk(c') && AllElectedOk(c') && BallotsOk(c') && CandidatesOk(c') && AcksOk(c')
  {
    var c' := Apply(c, BumpTerm(s, t));
    BumpReigns(c, s, t);
    forall v: nat, u: nat | (v, u) in c'.ballots ensures BallotOk(c', v, u) { assert BallotOk(c, v, u); }
    forall v: nat, u: nat | c'.Stands(v, u) && c'.term[v] == u && u !in c'.reigns
      ensures c'.log[v] == c'.BallotOf(v, u).log
    {
      assert c.Stands(v, u) && BallotOk(c, v, u);
    }
  }

  lemma StandInv(c: Core, s: nat)
    requires Inv(c) && Enabled(c, Stand(s))
    ensures Inv(Apply(c, Stand(s)))
  {
    var c' := Apply(c, Stand(s));
    StandGrows(c, s);
    StandShape(c, s);
    LeadersHoldKept(c, c');
    ServersHoldKept(c, c');
    BallotsHoldKept(c, c');
  }

  lemma StandShape(c: Core, s: nat)
    requires Shape(c) && LogsOk(c) && ReignsOk(c) && AllElectedOk(c) && BallotsOk(c) && CandidatesOk(c) && AcksOk(c)
    requires Enabled(c, Stand(s))
    ensures var c' := Apply(c, Stand(s));
      Shape(c') && LogsOk(c') && ReignsOk(c') && AllElectedOk(c') && BallotsOk(c') && CandidatesOk(c') && AcksOk(c')
  {
    StandElected(c, s);
    StandBallots(c, s);
  }

  lemma StandElected(c: Core, s: nat)
    requires Shape(c) && LogsOk(c) && ReignsOk(c) && AllElectedOk(c) && BallotsOk(c) && AcksOk(c)
    requires Enabled(c, Stand(s))
    ensures var c' := Apply(c, Stand(s));
      Shape(c') && LogsOk(c') && ReignsOk(c') && AllElectedOk(c') && AcksOk(c')
  {
    var c' := Apply(c, Stand(s));
    assert (s, c.term[s] + 1) in c.ballots ==> BallotOk(c, s, c.term[s] + 1);
    forall u: nat | u in c'.reigns ensures ReignOk(c', u) && ElectedOk(c', u) {
      assert ReignOk(c, u) && ElectedOk(c, u);
      if c.reigns[u].leader == s { assert BallotOk(c, s, u); }
    }
  }

  lemma StandBallots(c: Core, s: nat)
    requires Shape(c) && LogsOk(c) && BallotsOk(c) && CandidatesOk(c) && Enabled(c, Stand(s))
    ensures var c' := Apply(c, Stand(s)); Shape(c') && BallotsOk(c') && CandidatesOk(c')
  {
    var c' := Apply(c, Stand(s));
    var t := c.term[s] + 1;
    assert (s, t) in c.ballots ==> BallotOk(c, s, t);
    forall v: nat, u: nat | (v, u) in c'.ballots ensures BallotOk(c', v, u) {
      if (v, u) != (s, t) { assert BallotOk(c, v, u); }
    }
    forall v: nat, u: nat | c'.Stands(v, u) && c'.term[v] == u && u !in c'.reigns
      ensures c'.log[v] == c'.BallotOf(v, u).log
    {
      if (v, u) != (s, t) { assert c.Stands(v, u) && BallotOk(c, v, u); }
    }
  }

  lemma CastInv(c: Core, s: nat, cand: nat)
    requires Inv(c) && Enabled(c, Cast(s, cand))
    ensures Inv(Apply(c, Cast(s, cand)))
  {
    var c' := Apply(c, Cast(s, cand));
    if c' != c {
      CastGrows(c, s, cand);
      CastShape(c, s, cand);
      LeadersHoldKept(c, c');
      ServersHoldKept(c, c');
      BallotsHoldKept(c, c');
    }
  }

  lemma CastReigns(c: Core, s: nat, cand: nat)
    requires Shape(c) && ReignsOk(c) && AllElectedOk(c)
    requires Enabled(c, Cast(s, cand)) && (s, c.term[s]) !in c.ballots
    ensures var c' := Apply(c, Cast(s, cand)); Shape(c') && ReignsOk(c') && AllElectedOk(c')
  {
    var c' := Apply(c, Cast(s, cand));
    forall u: nat | u in c'.reigns ensures ReignOk(c', u) && ElectedOk(c', u) {
      assert ReignOk(c, u) && ElectedOk(c, u);
    }
  }

  lemma CastShape(c: Core, s: nat, cand: nat)
    requires Shape(c) && LogsOk(c) && ReignsOk(c) && AllElectedOk(c) && BallotsOk(c) && CandidatesOk(c) && AcksOk(c)
    requires Enabled(c, Cast(s, cand)) && (s, c.term[s]) !in c.ballots
    ensures var c' := Apply(c, Cast(s, cand));
      Shape(c') && LogsOk(c') && ReignsOk(c') && AllElectedOk(c') && BallotsOk(c') && CandidatesOk(c') && AcksOk(c')
  {
    var c' := Apply(c, Cast(s, cand));
    var t := c.term[s];
    CastReigns(c, s, cand);
    assert BallotOk(c, cand, t);
    forall v: nat, u: nat | (v, u) in c'.ballots ensures BallotOk(c', v, u) {
      if (v, u) != (s, t) { assert BallotOk(c, v, u); }
    }
    forall v: nat, u: nat | c'.Stands(v, u) && c'.term[v] == u && u !in c'.reigns
      ensures c'.log[v] == c'.BallotOf(v, u).log
    {
      assert c.Stands(v, u);
    }
  }

  // ----- Win -----

  lemma WinInv(c: Core, s: nat, q: set<nat>)
    requires Inv(c) && Enabled(c, Win(s, q))
    ensures Inv(Apply(c, Win(s, q)))
  {
    OneWinner(c, s, q);
    WinGrows(c, s, q);
    WinShape(c, s, q);
    WinnerHasOldTerms(c, s);
    WinLeadersHold(c, s, q);
    WinServersHold(c, s, q);
    WinBallotsHold(c, s, q);
  }

  /** A candidate that can win has no entry of its own term. */
  lemma WinnerHasOldTerms(c: Core, s: nat)
    requires Shape(c) && LogsOk(c) && ReignsOk(c) && BallotsOk(c) && CandidatesOk(c)
    requires s < c.n && c.term[s] !in c.reigns && c.Stands(s, c.term[s])
    ensures c.log[s] == c.BallotOf(s, c.term[s]).log
    ensures forall k :: 0 <= k < |c.log[s]| ==> c.log[s][k].term < c.term[s]
  {
    assert BallotOk(c, s, c.term[s]);
    LogSorted(c, c.log[s]);
    var last := |c.log[s]| - 1;
    forall k | 0 <= k < |c.log[s]| ensures c.log[s][k].term < c.term[s] {
      assert k < last ==> NotAfter(c.log[s], k, last);
    }
  }

  lemma WinReigns(c: Core, s: nat, q: set<nat>)
    requires Shape(c) && LogsOk(c) && ReignsOk(c) && AllElectedOk(c)
    requires Enabled(c, Win(s, q)) && Grows(c, Apply(c, Win(s, q))) && c.term[s] !in c.reigns
    ensures var c' := Apply(c, Win(s, q)); ReignsOk(c') && AllElectedOk(c')
  {
    var c' := Apply(c, Win(s, q));
    LogOkGrows(c, c', c.log[s]);
    LogSorted(c, c.log[s]);
    forall u: nat | u in c'.reigns ensures ReignOk(c', u) && ElectedOk(c', u) {
      if u != c.term[s] {
        assert ReignOk(c, u) && ElectedOk(c, u);
        LogOkGrows(c, c', c.LeaderLog(u));
      }
    }
  }

  lemma WinShape(c: Core, s: nat, q: set<nat>)
    requires Shape(c) && LogsOk(c) && ReignsOk(c) && AllElectedOk(c) && BallotsOk(c) && CandidatesOk(c) && AcksOk(c)
    requires Enabled(c, Win(s, q)) && Grows(c, Apply(c, Win(s, q))) && c.term[s] !in c.reigns
    ensures var c' := Apply(c, Win(s, q));
      Shape(c') && LogsOk(c') && ReignsOk(c') && AllElectedOk(c') && BallotsOk(c') && CandidatesOk(c') && AcksOk(c')
  {
    var c' := Apply(c, Win(s, q));
    forall v: nat | v < c'.n ensures LogOk(c'.reigns, c'.log[v]) && LastTerm(c'.log[v]) <= c'.term[v] {
      LogOkGrows(c, c', c.log[v]);
    }
    WinReigns(c, s, q);
    forall v: nat, u: nat | (v, u) in c'.ballots ensures BallotOk(c', v, u) {
      assert BallotOk(c, v, u);
      LogOkGrows(c, c', c.BallotOf(v, u).log);
    }
    forall v: nat, u: nat | c'.Stands(v, u) && c'.term[v] == u && u !in c'.reigns
      ensures c'.log[v] == c'.BallotOf(v, u).log
    {
      assert c.Stands(v, u);
    }
  }

  /** The vote's up-to-date test at work: whatever a voter had acknowledged, the winner has. */
  lemma WinnerHolds(c: Core, s: nat, q: set<nat>, t: nat, k: nat)
    requires Shape(c) && LogsOk(c) && ReignsOk(c) && AllElectedOk(c) && BallotsOk(c) && CandidatesOk(c)
    requires LeadersHold(c) && BallotsHold(c)
    requires Enabled(c, Win(s, q)) && c.term[s] !in c.reigns
    requires Own(c.reigns, t, k) && t < c.term[s]
    ensures Holds(c, c.log[s], t, k)
  {
    var u := c.term[s];
    if forall v :: v in q ==> c.Acked(v, t) < k {
      forall v | v in q ensures c.term[v] > t { assert BallotOk(c, v, u); }
      assert RejectedBy(c, t, k, q);
    } else {
      var v :| v in q && k <= c.Acked(v, t);
      var ballot := c.BallotOf(v, u).log;
      assert Holds(c, ballot, t, k);
      if !Rejected(c, t, k) {
        WinnerHolds2(c, s, v, t, k);
      }
    }
  }

  lemma WinnerHolds2(c: Core, s: nat, v: nat, t: nat, k: nat)
    requires Shape(c) && LogsOk(c) && ReignsOk(c) && AllElectedOk(c) && BallotsOk(c) && CandidatesOk(c)
    requires LeadersHold(c) && s < c.n && c.Stands(s, c.term[s]) && c.term[s] !in c.reigns
    requires (v, c.term[s]) in c.ballots && c.BallotOf(v, c.term[s]).candidate == s
    requires Own(c.reigns, t, k) && t < c.term[s]
    requires Agree(c.BallotOf(v, c.term[s]).log, c.LeaderLog(t), k + 1) && !Rejected(c, t, k)
    ensures Agree(c.log[s], c.LeaderLog(t), k + 1)
  {
    var w := LastTerm(c.log[s]);
    assert BallotOk(c, v, c.term[s]);
    WinnerHasOldTerms(c, s);
    OwnTermPositive(c, t, k);
    assert w in c.reigns && t < w ==> Holds(c, c.LeaderLog(w), t, k);
    RecentEnough(c, c.log[s], c.BallotOf(v, c.term[s]).log, t, k);
  }

  /** A log at least as recent as one that has (t, k) has it too, if its last leader did. */
  lemma RecentEnough(c: Core, mine: Log, theirs: Log, t: nat, k: nat)
    requires ReignsOk(c) && LogOk(c.reigns, mine) && LogOk(c.reigns, theirs) && Own(c.reigns, t, k) && t >= 1
    requires AtLeastAsRecent(LastTerm(mine), |mine| - 1, theirs)
    requires Agree(theirs, c.LeaderLog(t), k + 1)
    requires LastTerm(mine) in c.reigns && t < LastTerm(mine) ==>
               Agree(c.LeaderLog(LastTerm(mine)), c.LeaderLog(t), k + 1)
    ensures Agree(mine, c.LeaderLog(t), k + 1)
  {
    LogSorted(c, theirs);
    AgreeAt(theirs, c.LeaderLog(t), k + 1, k);
    assert k < |theirs| - 1 ==> NotAfter(theirs, k, |theirs| - 1);
    assert LastTerm(theirs) >= t;
    var w := LastTerm(mine);
    assert |mine| > 1;
    assert FromLeader(c.reigns, mine, |mine| - 1);
    if w == LastTerm(theirs) {
      assert FromLeader(c.reigns, theirs, |theirs| - 1);
      AgreeShorter(mine, c.LeaderLog(w), |mine|, k + 1);
      AgreeShorter(theirs, c.LeaderLog(w), |theirs|, k + 1);
    } else {
      LongerThan(c, mine, t, w, k);
      AgreeShorter(mine, c.LeaderLog(w), |mine|, k + 1);
    }
  }

  lemma OwnTermPositive(c: Core, t: nat, k: nat)
    requires Shape(c) && AllElectedOk(c) && BallotsOk(c) && Own(c.reigns, t, k)
    ensures t >= 1
  {
    assert ElectedOk(c, t);
    assert BallotOk(c, c.reigns[t].leader, t);
  }

  /** A log that ends in a later term w is longer than the point where w's leader still had term t. */
  lemma LongerThan(c: Core, log: Log, t: nat, w: nat, k: nat)
    requires ReignsOk(c) && LogOk(c.reigns, log) && |log| > 1 && LastTerm(log) == w && w > t
    requires w in c.reigns && Own(c.reigns, t, k)
    requires Agree(c.LeaderLog(w), c.LeaderLog(t), k + 1) && Agree(log, c.LeaderLog(w), |log|)
    ensures |log| > k + 1
  {
    assert ReignOk(c, w);
    AgreeAt(c.LeaderLog(w), c.LeaderLog(t), k + 1, k);
    AgreeAt(log, c.LeaderLog(w), |log|, |log| - 1);
    assert |log| - 1 < k ==> NotAfter(c.LeaderLog(w), |log| - 1, k);
  }

  lemma WinLeadersHold(c: Core, s: nat, q: set<nat>)
    requires Shape(c) && LogsOk(c) && ReignsOk(c) && AllElectedOk(c) && BallotsOk(c) && CandidatesOk(c)
    requires LeadersHold(c) && BallotsHold(c)
    requires Enabled(c, Win(s, q)) && c.term[s] !in c.reigns && Grows(c, Apply(c, Win(s, q)))
    requires forall k :: 0 <= k < |c.log[s]| ==> c.log[s][k].term < c.term[s]
    ensures LeadersHold(Apply(c, Win(s, q)))
  {
    var c' := Apply(c, Win(s, q));
    forall t: nat, k: nat, u: nat | Own(c'.reigns, t, k) && u in c'.reigns && t < u
      ensures Holds(c', c'.LeaderLog(u), t, k)
    {
      assert t != c.term[s];
      assert Own(c.reigns, t, k);
      if u == c.term[s] {
        WinnerHolds(c, s, q, t, k);
        HoldsGrows(c, c', c.log[s], c.log[s], t, k);
      } else {
        HoldsGrows(c, c', c.LeaderLog(u), c.LeaderLog(u), t, k);
      }
    }
  }

  lemma WinServersHold(c: Core, s: nat, q: set<nat>)
    requires Shape(c) && ServersHold(c)
    requires Enabled(c, Win(s, q)) && c.term[s] !in c.reigns && Grows(c, Apply(c, Win(s, q)))
    requires forall k :: 0 <= k < |c.log[s]| ==> c.log[s][k].term < c.term[s]
    ensures ServersHold(Apply(c, Win(s, q)))
  {
    var c' := Apply(c, Win(s, q));
    forall t: nat, k: nat, v: nat | Own(c'.reigns, t, k) && v < c'.n && k <= c'.Acked(v, t)
      ensures Holds(c', c'.log[v], t, k)
    {
      assert t != c.term[s];
      assert Own(c.reigns, t, k) && c.Acked(v, t) == c'.Acked(v, t);
      HoldsGrows(c, c', c.log[v], c.log[v], t, k);
    }
  }

  lemma WinBallotsHold(c: Core, s: nat, q: set<nat>)
    requires Shape(c) && BallotsHold(c)
    requires Enabled(c, Win(s, q)) && c.term[s] !in c.reigns && Grows(c, Apply(c, Win(s, q)))
    requires forall k :: 0 <= k < |c.log[s]| ==> c.log[s][k].term < c.term[s]
    ensures BallotsHold(Apply(c, Win(s, q)))
  {
    var c' := Apply(c, Win(s, q));
    forall t: nat, k: nat, v: nat, u: nat |
      Own(c'.reigns, t, k) && (v, u) in c'.ballots && t < u && k <= c'.Acked(v, t)
      ensures Holds(c', c'.BallotOf(v, u).log, t, k)
    {
      assert t != c.term[s];
      assert Own(c.reigns, t, k) && c.Acked(v, t) == c'.Acked(v, t);
      var log := c.BallotOf(v, u).log;
      HoldsGrows(c, c', log, log, t, k);
    }
  }

  // ----- Propose -----

  lemma ProposeInv(c: Core, s: nat, cmd: Command)
    requires Inv(c) && Enabled(c, Propose(s, cmd))
    ensures Inv(Apply(c, Propose(s, cmd)))
  {
    assert ElectedOk(c, c.term[s]);
    ProposeGrows(c, s, cmd);
    ProposeShape(c, s, cmd);
    ProposeLeadersHold(c, s, cmd);
    ProposeServersHold(c, s, cmd);
    ProposeBallotsHold(c, s, cmd);
  }

  lemma ProposeShape(c: Core, s: nat, cmd: Command)
    requires Shape(c) && LogsOk(c) && ReignsOk(c) && AllElectedOk(c) && BallotsOk(c) && CandidatesOk(c) && AcksOk(c)
    requires Enabled(c, Propose(s, cmd)) && Grows(c, Apply(c, Propose(s, cmd)))
    ensures var c' := Apply(c, Propose(s, cmd));
      Shape(c') && LogsOk(c') && ReignsOk(c') && AllElectedOk(c') && BallotsOk(c') && CandidatesOk(c') && AcksOk(c')
  {
    ProposeLogs(c, s, cmd);
    ProposeElected(c, s, cmd);
    ProposeBallots(c, s, cmd);
  }

  lemma ProposeLogs(c: Core, s: nat, cmd: Command)
    requires Shape(c) && LogsOk(c) && ReignsOk(c) && AllElectedOk(c)
    requires Enabled(c, Propose(s, cmd)) && Grows(c, Apply(c, Propose(s, cmd)))
    ensures var c' := Apply(c, Propose(s, cmd)); Shape(c') && LogsOk(c') && ReignsOk(c')
  {
    var c' := Apply(c, Propose(s, cmd));
    ProposedLogOk(c, s, cmd);
    forall v: nat | v < c'.n ensures LogOk(c'.reigns, c'.log[v]) && LastTerm(c'.log[v]) <= c'.term[v] {
      if v != s { LogOkGrows(c, c', c.log[v]); }
    }
    forall u: nat | u in c'.reigns ensures ReignOk(c', u) {
      if u != c.term[s] {
        assert ReignOk(c, u);
        LogOkGrows(c, c', c.LeaderLog(u));
      }
    }
  }

  lemma ProposeElected(c: Core, s: nat, cmd: Command)
    requires Shape(c) && AllElectedOk(c) && AcksOk(c) && CandidatesOk(c)
    requires Enabled(c, Propose(s, cmd)) && Grows(c, Apply(c, Propose(s, cmd)))
    ensures var c' := Apply(c, Propose(s, cmd)); AllElectedOk(c') && AcksOk(c') && CandidatesOk(c')
  {
    var c' := Apply(c, Propose(s, cmd));
    assert ElectedOk(c, c.term[s]);
    forall u: nat | u in c'.reigns ensures ElectedOk(c', u) {
      assert ElectedOk(c, u);
    }
    ProposeCandidates(c, s, cmd);
  }

  lemma ProposeCandidates(c: Core, s: nat, cmd: Command)
    requires Shape(c) && CandidatesOk(c) && Enabled(c, Propose(s, cmd))
    ensures Shape(Apply(c, Propose(s, cmd))) && CandidatesOk(Apply(c, Propose(s, cmd)))
  {
    var c' := Apply(c, Propose(s, cmd));
    forall v: nat, u: nat | c'.Stands(v, u) && c'.term[v] == u && u !in c'.reigns
      ensures c'.log[v] == c'.BallotOf(v, u).log
    {
      assert c.Stands(v, u);
    }
  }

  lemma ProposeBallots(c: Core, s: nat, cmd: Command)
    requires Shape(c) && BallotsOk(c)
    requires Enabled(c, Propose(s, cmd)) && Grows(c, Apply(c, Propose(s, cmd)))
    ensures BallotsOk(Apply(c, Propose(s, cmd)))
  {
    var c' := Apply(c, Propose(s, cmd));
    forall v: nat, u: nat | (v, u) in c'.ballots ensures BallotOk(c', v, u) {
      assert BallotOk(c, v, u);
      LogOkGrows(c, c', c.BallotOf(v, u).log);
    }
  }

  lemma ProposedLogOk(c: Core, s: nat, cmd: Command)
    requires Shape(c) && LogsOk(c) && ReignsOk(c) && AllElectedOk(c)
    requires Enabled(c, Propose(s, cmd)) && Grows(c, Apply(c, Propose(s, cmd)))
    ensures var c' := Apply(c, Propose(s, cmd));
      LogOk(c'.reigns, c'.log[s]) && Sorted(c'.log[s]) && c'.LeaderLog(c.term[s]) == c'.log[s]
  {
    var c' := Apply(c, Propose(s, cmd));
    var log, log' := c.log[s], c'.log[s];
    LogOkGrows(c, c', log);
    LogSorted(c, log);
    forall k | 1 <= k < |log'| ensures FromLeader(c'.reigns, log', k) {
      if k < |log| {
        assert FromLeader(c'.reigns, log, k);
        assert log'[..k + 1] == log[..k + 1];
      }
    }
    forall i: nat, j: nat | i < j < |log'| ensures NotAfter(log', i, j) {
      assert j < |log| ==> NotAfter(log, i, j);
      assert i < |log| - 1 ==> NotAfter(log, i, |log| - 1);
    }
  }

  lemma ProposeLeadersHold(c: Core, s: nat, cmd: Command)
    requires Shape(c) && AllElectedOk(c) && BallotsOk(c) && AcksOk(c) && LeadersHold(c)
    requires Enabled(c, Propose(s, cmd)) && Grows(c, Apply(c, Propose(s, cmd)))
    ensures LeadersHold(Apply(c, Propose(s, cmd)))
  {
    var c' := Apply(c, Propose(s, cmd));
    assert ElectedOk(c, c.term[s]);
    forall t: nat, k: nat, u: nat | Own(c'.reigns, t, k) && u in c'.reigns && t < u
      ensures Holds(c', c'.LeaderLog(u), t, k)
    {
      if t == c.term[s] && k == |c.log[s]| {
        ProposedTooLate(c, s, cmd, u);
      } else {
        assert Own(c.reigns, t, k);
        HoldsGrows(c, c', c.LeaderLog(u), c'.LeaderLog(u), t, k);
      }
    }
  }

  /** An entry proposed after a later leader was elected can never gather a quorum. */
  lemma ProposedTooLate(c: Core, s: nat, cmd: Command, u: nat)
    requires Shape(c) && AllElectedOk(c) && BallotsOk(c) && AcksOk(c)
    requires Enabled(c, Propose(s, cmd)) && Grows(c, Apply(c, Propose(s, cmd)))
    requires u in c.reigns && c.term[s] < u && |c.log[s]| > 0
    requires c.log[s] == c.LeaderLog(c.term[s])
    ensures Rejected(Apply(c, Propose(s, cmd)), c.term[s], |c.log[s]|)
  {
    var c' := Apply(c, Propose(s, cmd));
    var q := c.reigns[u].electors;
    assert ElectedOk(c, u);
    forall v | v in q ensures c'.term[v] > c.term[s] && c'.Acked(v, c.term[s]) < |c.log[s]| {
      assert BallotOk(c, v, u);
      assert (v, c.term[s]) in c.acks ==> c.Acked(v, c.term[s]) < |c.log[s]|;
    }
    assert RejectedBy(c', c.term[s], |c.log[s]|, q);
  }

  lemma ProposeServersHold(c: Core, s: nat, cmd: Command)
    requires Shape(c) && AllElectedOk(c) && AcksOk(c) && ServersHold(c)
    requires Enabled(c, Propose(s, cmd)) && Grows(c, Apply(c, Propose(s, cmd)))
    ensures ServersHold(Apply(c, Propose(s, cmd)))
  {
    var c' := Apply(c, Propose(s, cmd));
    assert ElectedOk(c, c.term[s]);
    forall t: nat, k: nat, v: nat | Own(c'.reigns, t, k) && v < c'.n && k <= c'.Acked(v, t)
      ensures Holds(c', c'.log[v], t, k)
    {
      if v == s && t == c.term[s] {
        assert Agree(c'.log[v], c'.LeaderLog(t), k + 1);
      } else {
        assert c'.Acked(v, t) == c.Acked(v, t);
        assert (v, t) in c.acks;
        assert Own(c.reigns, t, k);
        HoldsGrows(c, c', c.log[v], c'.log[v], t, k);
      }
    }
  }

  lemma ProposeBallotsHold(c: Core, s: nat, cmd: Command)
    requires Shape(c) && AllElectedOk(c) && BallotsOk(c) && AcksOk(c) && BallotsHold(c)
    requires Enabled(c, Propose(s, cmd)) && Grows(c, Apply(c, Propose(s, cmd)))
    ensures BallotsHold(Apply(c, Propose(s, cmd)))
  {
    var c' := Apply(c, Propose(s, cmd));
    assert ElectedOk(c, c.term[s]);
    forall t: nat, k: nat, v: nat, u: nat |
      Own(c'.reigns, t, k) && (v, u) in c'.ballots && t < u && k <= c'.Acked(v, t)
      ensures Holds(c', c'.BallotOf(v, u).log, t, k)
    {
      assert BallotOk(c, v, u);
      assert c'.Acked(v, t) == c.Acked(v, t);
      assert (v, t) in c.acks;
      assert Own(c.reigns, t, k);
      var log := c.BallotOf(v, u).log;
      HoldsGrows(c, c', log, log, t, k);
    }
  }

  // ----- Accept -----

  lemma AcceptInv(c: Core, s: nat, m: nat)
    requires Inv(c) && Enabled(c, Accept(s, m))
    ensures Inv(Apply(c, Accept(s, m)))
  {
    var c' := Apply(c, Accept(s, m));
    AcceptGrows(c, s, m);
    AcceptShape(c, s, m);
    LeadersHoldKept(c, c');
    AcceptServersHold(c, s, m);
    AcceptBallotsHold(c, s, m);
  }

  lemma AcceptShape(c: Core, s: nat, m: nat)
    requires Shape(c) && LogsOk(c) && ReignsOk(c) && AllElectedOk(c) && BallotsOk(c) && CandidatesOk(c) && AcksOk(c)
    requires Enabled(c, Accept(s, m)) && Grows(c, Apply(c, Accept(s, m)))
    ensures var c' := Apply(c, Accept(s, m));
      Shape(c') && LogsOk(c') && ReignsOk(c') && AllElectedOk(c') && BallotsOk(c') && CandidatesOk(c') && AcksOk(c')
  {
    AcceptLogs(c, s, m);
    AcceptElected(c, s, m);
    AcceptBallots(c, s, m);
  }

  lemma AcceptLogs(c: Core, s: nat, m: nat)
    requires Shape(c) && LogsOk(c) && ReignsOk(c)
    requires Enabled(c, Accept(s, m)) && Grows(c, Apply(c, Accept(s, m)))
    ensures var c' := Apply(c, Accept(s, m)); LogsOk(c') && ReignsOk(c')
  {
    var c' := Apply(c, Accept(s, m));
    var leaderLog := c.LeaderLog(c.term[s]);
    assert ReignOk(c, c.term[s]);
    LogOkPrefix(c.reigns, leaderLog, m);
    assert m < |leaderLog| - 1 ==> NotAfter(leaderLog, m, |leaderLog| - 1);
    forall u: nat | u in c'.reigns ensures ReignOk(c', u) {
      assert ReignOk(c, u);
    }
  }

  lemma AcceptElected(c: Core, s: nat, m: nat)
    requires Shape(c) && AllElectedOk(c) && AcksOk(c) && CandidatesOk(c)
    requires Enabled(c, Accept(s, m)) && Grows(c, Apply(c, Accept(s, m)))
    ensures var c' := Apply(c, Accept(s, m)); AllElectedOk(c') && AcksOk(c') && CandidatesOk(c')
  {
    var c' := Apply(c, Accept(s, m));
    forall u: nat | u in c'.reigns ensures ElectedOk(c', u) {
      assert ElectedOk(c, u);
    }
    forall v: nat, u: nat | c'.Stands(v, u) && c'.term[v] == u && u !in c'.reigns
      ensures c'.log[v] == c'.BallotOf(v, u).log
    {
      assert c.Stands(v, u);
    }
  }

  lemma AcceptBallots(c: Core, s: nat, m: nat)
    requires Shape(c) && BallotsOk(c)
    requires Enabled(c, Accept(s, m)) && Grows(c, Apply(c, Accept(s, m)))
    ensures BallotsOk(Apply(c, Accept(s, m)))
  {
    var c' := Apply(c, Accept(s, m));
    forall v: nat, u: nat | (v, u) in c'.ballots ensures BallotOk(c', v, u) {
      assert BallotOk(c, v, u);
    }
  }

  /** Merging never cuts off what log and leader share. */
  lemma MergeKeeps(log: Log, leaderLog: Log, m: nat, common: Log, k: nat)
    requires m < |leaderLog| && Agree(log, common, k) && Agree(leaderLog, common, k)
    ensures Agree(Merge(log, leaderLog, m), common, k)
  {
    if !Agree(leaderLog, log, m + 1) {
      if m + 1 < k {
        AgreeChain(leaderLog, common, log, k, k);
        AgreeShorter(leaderLog, log, k, m + 1);
      } else {
        assert leaderLog[..m + 1][..k] == leaderLog[..k];
      }
    }
  }

  lemma MergeTakes(log: Log, leaderLog: Log, m: nat)
    requires m < |leaderLog|
    ensures Agree(Merge(log, leaderLog, m), leaderLog, m + 1)
  {
  }

  lemma AcceptServersHold(c: Core, s: nat, m: nat)
    requires Shape(c) && AcksOk(c) && LeadersHold(c) && ServersHold(c)
    requires Enabled(c, Accept(s, m)) && Grows(c, Apply(c, Accept(s, m)))
    ensures ServersHold(Apply(c, Accept(s, m)))
  {
    var c' := Apply(c, Accept(s, m));
    forall t: nat, k: nat, v: nat | Own(c'.reigns, t, k) && v < c'.n && k <= c'.Acked(v, t)
      ensures Holds(c', c'.log[v], t, k)
    {
      if v != s {
        HoldsGrows(c, c', c.log[v], c.log[v], t, k);
      } else {
        AccepterHolds(c, s, m, t, k);
        HoldsGrows(c, c', c'.log[s], c'.log[s], t, k);
      }
    }
  }

  lemma AccepterHolds(c: Core, s: nat, m: nat, t: nat, k: nat)
    requires Shape(c) && AcksOk(c) && LeadersHold(c) && ServersHold(c)
    requires Enabled(c, Accept(s, m))
    requires Own(c.reigns, t, k) && k <= Apply(c, Accept(s, m)).Acked(s, t)
    ensures Holds(c, Apply(c, Accept(s, m)).log[s], t, k)
  {
    var u := c.term[s];
    var leaderLog := c.LeaderLog(u);
    if t == u && k <= m {
      MergeTakes(c.log[s], leaderLog, m);
      AgreeShorter(Merge(c.log[s], leaderLog, m), leaderLog, m + 1, k + 1);
    } else {
      assert (s, t) in c.acks && t <= u;
      assert Holds(c, c.log[s], t, k);
      assert t < u ==> Holds(c, leaderLog, t, k);
      if !Rejected(c, t, k) {
        MergeKeeps(c.log[s], leaderLog, m, c.LeaderLog(t), k + 1);
      }
    }
  }

  lemma AcceptBallotsHold(c: Core, s: nat, m: nat)
    requires Shape(c) && BallotsOk(c) && BallotsHold(c)
    requires Enabled(c, Accept(s, m)) && Grows(c, Apply(c, Accept(s, m)))
    ensures BallotsHold(Apply(c, Accept(s, m)))
  {
    var c' := Apply(c, Accept(s, m));
    forall t: nat, k: nat, v: nat, u: nat |
      Own(c'.reigns, t, k) && (v, u) in c'.ballots && t < u && k <= c'.Acked(v, t)
      ensures Holds(c', c'.BallotOf(v, u).log, t, k)
    {
      assert BallotOk(c, v, u);
      assert c'.Acked(v, t) == c.Acked(v, t);
      var log := c.BallotOf(v, u).log;
      HoldsGrows(c, c', log, log, t, k);
    }
  }

  // ----- every step, every run -----

  lemma StepInv(c: Core, e: Event)
    requires Inv(c) && Enabled(c, e)
    ensures Inv(Apply(c, e)) && Grows(c, Apply(c, e))
  {
    match e
    case BumpTerm(s, t) => BumpInv(c, s, t); BumpGrows(c, s, t);
    case Stand(s) => StandInv(c, s); StandGrows(c, s);
    case Cast(s, cand) => CastInv(c, s, cand); CastGrows(c, s, cand);
    case Win(s, q) => WinInv(c, s, q); WinGrows(c, s, q);
    case Propose(s, cmd) => ProposeInv(c, s, cmd); ProposeGrows(c, s, cmd);
    case Accept(s, m) => AcceptInv(c, s, m); AcceptGrows(c, s, m);
  }

  /** A server has neither voted nor led in a term it has not reached. */
  lemma FutureTerm(c: Core, s: nat, t: nat)
    requires Inv(c) && s < c.n && t > c.term[s]
    ensures (s, t) !in c.ballots
    ensures t in c.reigns ==> c.reigns[t].leader != s
  {
    assert (s, t) in c.ballots ==> BallotOk(c, s, t);
    assert t in c.reigns ==> ElectedOk(c, t);
  }

  // ----- what one server's steps leave alone -----

  /** Only server `s` acted between c and c'. */
  ghost predicate Local(c: Core, c': Core, s: nat) {
    && Shape(c) && Shape(c') && c'.n == c.n
    && (forall j: nat :: j < c.n && j != s ==> c'.term[j] == c.term[j] && c'.log[j] == c.log[j])
    && (forall j: nat, t: nat :: j != s && (j, t) in c'.ballots ==> (j, t) in c.ballots)
    && (forall t: nat :: t in c'.reigns && t !in c.reigns ==> c'.reigns[t].leader == s)
  }

  /** c' comes out of c by steps of server `s`, and both are states of a run. */
  ghost predicate Evolves(c: Core, c': Core, s: nat) {
    Inv(c') && Grows(c, c') && Local(c, c', s)
  }

  function Do(c: Core, e: Event): Core {
    if Enabled(c, e) then Apply(c, e) else c
  }

  lemma EventLocal(c: Core, e: Event)
    requires Shape(c) && Enabled(c, e) && Grows(c, Apply(c, e))
    ensures Local(c, Apply(c, e), e.server)
  {
  }

  lemma DoEvolves(c: Core, e: Event)
    requires Inv(c)
    ensures Evolves(c, Do(c, e), e.server)
  {
    if Enabled(c, e) {
      StepInv(c, e);
      EventLocal(c, e);
    }
  }

  lemma EvolvesTwice(a: Core, b: Core, c: Core, s: nat)
    requires Evolves(a, b, s) && Evolves(b, c, s)
    ensures Evolves(a, c, s)
  {
    GrowsTwice(a, b, c);
    LocalTwice(a, b, c, s);
  }

  lemma GrowsTwice(a: Core, b: Core, c: Core)
    requires Grows(a, b) && Grows(b, c)
    ensures Grows(a, c)
  {
  }

  lemma LocalTwice(a: Core, b: Core, c: Core, s: nat)
    requires Grows(a, b) && Grows(b, c) && Local(a, b, s) && Local(b, c, s)
    ensures Local(a, c, s)
  {
  }
}
