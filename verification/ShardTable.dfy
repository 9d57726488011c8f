/** What Gets and Puts mean, told from the operations served before them and from nothing else. */
module ShardTable {
  import opened ShardGroup
  import opened ShardWorld
  import opened ShardLedger
  import opened ShardSafety

  /** The values written to the key: those of the Puts on it that were answered OK, in order. */
  function Written(log: seq<Event>, key: Key): seq<string> {
    if log == [] then []
    else
      var e, before := log[|log| - 1], Written(log[..|log| - 1], key);
      if e.PutDone? && e.put.key == key && e.err == OK then before + [e.put.value] else before
  }

  /** The table has the last of the values, and their number as its version. */
  ghost predicate HasLast(t: Table, key: Key, values: seq<string>) {
    && (key in t <==> values != [])
    && (key in t ==> t[key] == VersionedValue(values[|values| - 1], |values|))
  }

  lemma StoreIsWritten(t: Table, key: Key, values: seq<string>, put: PutRequest, err: Err)
    requires HasLast(t, key, values) && err == Store(t, put.key, put.value, put.version).1
    ensures HasLast(Store(t, put.key, put.value, put.version).0, key,
                    if put.key == key && err == OK then values + [put.value] else values)
  {
  }

  lemma {:induction false} ReplayIsWritten(log: seq<Event>, key: Key)
    requires Legal(log)
    ensures HasLast(Replay(log), key, Written(log, key))
  {
    if log != [] {
      var before, e := log[..|log| - 1], log[|log| - 1];
      LegalBefore(log, |log| - 1);
      ReplayIsWritten(before, key);
      assert Honest(Replay(log[..|log| - 1]), log[|log| - 1]);
      if e.PutDone? { StoreIsWritten(Replay(before), key, Written(before, key), e.put, e.err); }
    }
  }

  lemma LegalBefore(log: seq<Event>, j: nat)
    requires Legal(log) && j <= |log|
    ensures Legal(log[..j])
  {
    forall i | 0 <= i < j ensures Honest(Replay(log[..j][..i]), log[..j][i]) {
      assert log[..j][..i] == log[..i];
    }
  }

  /** A Get answers with the last value written before it, and with how many there have been, or with
      ErrNoKey if there has been none. */
  ghost predicate ReadsLast(values: seq<string>, reply: Reply) {
    && reply.GetReply?
    && (reply.err == OK <==> values != [])
    && (reply.err == ErrNoKey <==> values == [])
    && (values != [] ==> reply.value == values[|values| - 1] && reply.version == |values|)
    && (values == [] ==> reply.value == "" && reply.version == 0)
  }

  lemma GetsReadTheLastWrite(run: seq<World>, i: nat, j: nat)
    requires Run(run) && i < |run| && j < |run[i].log| && run[i].log[j].GetDone?
    ensures ReadsLast(Written(run[i].log[..j], run[i].log[j].key), run[i].log[j].reply)
  {
    var log := run[i].log;
    OneTable(run, i);
    LegalBefore(log, j);
    ReplayIsWritten(log[..j], log[j].key);
    assert Honest(Replay(log[..j]), log[j]);
  }

  /** A Put is accepted if and only if its version is the number of values written to its key before;
      else the error says whether there was any. */
  lemma PutsAreConditional(run: seq<World>, i: nat, j: nat)
    requires Run(run) && i < |run| && j < |run[i].log| && run[i].log[j].PutDone?
    ensures var e := run[i].log[j]; var written := |Written(run[i].log[..j], e.put.key)|;
      e.err == if e.put.version == written then OK else if written == 0 then ErrNoKey else ErrVersion
  {
    var log := run[i].log;
    OneTable(run, i);
    LegalBefore(log, j);
    ReplayIsWritten(log[..j], log[j].put.key);
    assert Honest(Replay(log[..j]), log[j]);
  }
}
