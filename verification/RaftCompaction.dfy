/** Compacted logs: the handlers' work on the log slice is the history's work on the full log. */
module RaftCompaction {
  import opened RaftLog
  import opened RaftNode
  import Core = RaftCore

  /** `log`, whose slot 0 stands for index `base`, is `full` with everything up to `base` compacted away. */
  ghost predicate Compacts(log: Log, base: nat, full: Log) {
    && |log| > 0 && base + |log| == |full|
    && log[0].term == full[base].term
    && log[1..] == full[base + 1..]
  }

  lemma CompactsAt(log: Log, base: nat, full: Log, i: nat)
    requires Compacts(log, base, full) && base <= i < |full|
    ensures log[i - base].term == full[i].term
    ensures i > base ==> log[i - base] == full[i]
  {
    if i > base {
      assert log[i - base] == log[1..][i - base - 1];
      assert full[i] == full[base + 1..][i - base - 1];
    }
  }

  lemma CompactsLast(log: Log, base: nat, full: Log)
    requires Compacts(log, base, full)
    ensures LastTerm(log) == LastTerm(full)
  {
    CompactsAt(log, base, full, |full| - 1);
  }

  lemma CompactsCut(log: Log, base: nat, full: Log, index: nat)
    requires Compacts(log, base, full) && base <= index < |full|
    ensures Compacts(log[index - base..], index, full)
  {
    CompactsAt(log, base, full, index);
    assert log[index - base..][1..] == log[1..][index - base..];
    assert full[index + 1..] == full[base + 1..][index - base..];
  }

  lemma CompactsAppend(log: Log, base: nat, full: Log, e: Entry)
    requires Compacts(log, base, full)
    ensures Compacts(log + [e], base, full + [e])
  {
    assert (log + [e])[1..] == log[1..] + [e];
    assert (full + [e])[base + 1..] == full[base + 1..] + [e];
  }

  /** Replace the tail from `index` on. */
  lemma CompactsSplice(log: Log, base: nat, full: Log, index: nat, tail: Log)
    requires Compacts(log, base, full) && base < index <= |full|
    ensures Compacts(log[..index - base] + tail, base, full[..index] + tail)
  {
    assert (log[..index - base] + tail)[1..] == log[1..][..index - base - 1] + tail;
    assert (full[..index] + tail)[base + 1..] == full[base + 1..][..index - base - 1] + tail;
  }

  /** Log matching, for any two logs built from leaders' logs. */
  lemma SameTermSamePrefix(reigns: map<nat, Core.Reign>, a: Log, b: Log, k: nat)
    requires Core.LogOk(reigns, a) && Core.LogOk(reigns, b)
    requires k < |a| && k < |b| && a[k].term == b[k].term
    ensures Agree(a, b, k + 1)
  {
    if k == 0 {
      assert a[..1] == [ROOT] == b[..1];
    } else {
      assert Core.FromLeader(reigns, a, k) && Core.FromLeader(reigns, b, k);
    }
  }

  // ----- AppendEntries on the uncompacted log -----

  /** `entries` is the part of the leader's log that follows `prev`. */
  ghost predicate Segment(leaderLog: Log, prev: nat, prevTerm: nat, entries: Log) {
    && prev + |entries| < |leaderLog|
    && leaderLog[prev].term == prevTerm
    && entries == leaderLog[prev + 1..prev + 1 + |entries|]
  }

  lemma {:induction false} MatchLengthSpec(log: Log, at: nat, entries: Log)
    requires at <= |log|
    decreases |entries|
    ensures var k := MatchLength(log, at, entries);
      && at + k <= |log|
      && (forall i :: 0 <= i < k ==> entries[i].term == log[at + i].term)
      && (k < |entries| && at + k < |log| ==> entries[k].term != log[at + k].term)
  {
    if entries != [] && at < |log| && entries[0].term == log[at].term {
      MatchLengthSpec(log, at + 1, entries[1..]);
      var k := MatchLength(log, at, entries);
      forall i | 0 <= i < k ensures entries[i].term == log[at + i].term {
        if i > 0 { assert entries[i] == entries[1..][i - 1] && log[at + i] == log[at + 1 + (i - 1)]; }
      }
    }
  }

  /** The follower's loop on the compacted log is Merge on the uncompacted one. */
  lemma SplicedMerges(reigns: map<nat, Core.Reign>, log: Log, base: nat, full: Log, leaderLog: Log,
                      prev: nat, prevTerm: nat, entries: Log)
    requires Compacts(log, base, full)
    requires Core.LogOk(reigns, full) && Core.LogOk(reigns, leaderLog)
    requires Segment(leaderLog, prev, prevTerm, entries)
    requires base <= prev < |full| && full[prev].term == prevTerm
    ensures Compacts(Spliced(log, prev + 1 - base, entries), base, Core.Merge(full, leaderLog, prev + |entries|))
  {
    var at := prev + 1 - base;
    var k := MatchLength(log, at, entries);
    MatchLengthSpec(log, at, entries);
    SharedSoFar(reigns, log, base, full, leaderLog, prev, prevTerm, entries, k);
    if k < |entries| {
      Diverges(log, base, full, leaderLog, prev, prevTerm, entries, k);
    }
    SplicedAt(log, base, full, leaderLog, prev, prevTerm, entries, k);
  }

  lemma SplicedAt(log: Log, base: nat, full: Log, leaderLog: Log, prev: nat, prevTerm: nat, entries: Log, k: nat)
    requires Compacts(log, base, full) && base <= prev < |full|
    requires Segment(leaderLog, prev, prevTerm, entries)
    requires k == MatchLength(log, prev + 1 - base, entries)
    requires Agree(leaderLog, full, prev + 1 + k)
    requires k < |entries| ==> !Agree(leaderLog, full, prev + |entries| + 1)
    ensures Compacts(Spliced(log, prev + 1 - base, entries), base, Core.Merge(full, leaderLog, prev + |entries|))
  {
    if k < |entries| {
      SegmentTail(leaderLog, prev, prevTerm, entries, k);
      CompactsSplice(log, base, full, prev + 1 + k, entries[k..]);
    }
  }

  lemma SegmentTail(leaderLog: Log, prev: nat, prevTerm: nat, entries: Log, k: nat)
    requires Segment(leaderLog, prev, prevTerm, entries) && k <= |entries|
    ensures leaderLog[..prev + |entries| + 1] == leaderLog[..prev + 1 + k] + entries[k..]
  {
  }

  lemma SharedSoFar(reigns: map<nat, Core.Reign>, log: Log, base: nat, full: Log, leaderLog: Log,
                    prev: nat, prevTerm: nat, entries: Log, k: nat)
    requires Compacts(log, base, full)
    requires Core.LogOk(reigns, full) && Core.LogOk(reigns, leaderLog)
    requires Segment(leaderLog, prev, prevTerm, entries)
    requires base <= prev < |full| && full[prev].term == prevTerm
    requires k <= |entries| && prev + 1 + k <= |full|
    requires forall i :: 0 <= i < k ==> entries[i].term == log[prev + 1 - base + i].term
    ensures Agree(leaderLog, full, prev + 1 + k)
  {
    if k > 0 {
      assert entries[k - 1] == leaderLog[prev + k];
      assert entries[k - 1].term == log[prev + 1 - base + (k - 1)].term;
      CompactsAt(log, base, full, prev + k);
    }
    SameTermSamePrefix(reigns, leaderLog, full, prev + k);
  }

  lemma Diverges(log: Log, base: nat, full: Log, leaderLog: Log, prev: nat, prevTerm: nat, entries: Log, k: nat)
    requires Compacts(log, base, full)
    requires Segment(leaderLog, prev, prevTerm, entries)
    requires base <= prev < |full| && k < |entries|
    requires prev + 1 + k == |full| ||
             (prev + 1 + k < |full| && entries[k].term != log[prev + 1 - base + k].term)
    ensures !Agree(leaderLog, full, prev + |entries| + 1)
  {
    var j, m := prev + 1 + k, prev + |entries| + 1;
    if m <= |full| {
      CompactsAt(log, base, full, j);
      assert entries[k] == leaderLog[j];
      DisagreeAt(leaderLog, full, m, j);
    }
  }

  /** Both branches of InstallSnapshot are Merge on the uncompacted log. */
  lemma AdoptSnapshotMerges(reigns: map<nat, Core.Reign>, n: Node, full: Log, leaderLog: Log, a: SnapshotArgs)
    requires Compacts(n.log, n.lastIncluded, full)
    requires Core.LogOk(reigns, full) && Core.LogOk(reigns, leaderLog)
    requires a.lastIncluded < |leaderLog| && leaderLog[a.lastIncluded].term == a.lastIncludedTerm
    requires n.lastIncluded < a.lastIncluded
    ensures Compacts(AdoptSnapshot(n, a).log, a.lastIncluded, Core.Merge(full, leaderLog, a.lastIncluded))
  {
    var L := a.lastIncluded;
    if n.LastIndex() >= L {
      CompactsAt(n.log, n.lastIncluded, full, L);
      if n.TermAt(L) == a.lastIncludedTerm {
        SameTermSamePrefix(reigns, leaderLog, full, L);
        CompactsCut(n.log, n.lastIncluded, full, L);
      } else {
        DisagreeAt(leaderLog, full, L + 1, L);
      }
    }
    if !Agree(leaderLog, full, L + 1) {
      assert leaderLog[..L + 1][L + 1..] == [];
    }
  }
}
