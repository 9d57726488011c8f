/**
 * The log of served operations as the history of one versioned table, and what the holders
 * of a shard must remember about it.
 */
module ShardLedger {
  import opened ShardGroup
  import opened ShardOwners
  import opened ShardWorld
  import opened ShardLayout

  // ----- the specification: one table, one operation at a time -----

  function Apply(t: Table, e: Event): Table {
    match e
    case PutDone(put, _) => Store(t, put.key, put.value, put.version).0
    case GetDone(_, _, _) => t
  }

  function Replay(log: seq<Event>): Table {
    if log == [] then map[] else Apply(Replay(log[..|log| - 1]), log[|log| - 1])
  }

  /** The event was answered as the table would answer it. */
  predicate Honest(t: Table, e: Event) {
    match e
    case PutDone(put, err) => err == Store(t, put.key, put.value, put.version).1
    case GetDone(_, key, reply) => reply == Lookup(t, key)
  }

  /** Every operation was answered as by one table that served them in log order. */
  ghost predicate Legal(log: seq<Event>) {
    forall i :: 0 <= i < |log| ==> Honest(Replay(log[..i]), log[i])
  }

  /** No Put took effect twice. */
  ghost predicate Once(log: seq<Event>) {
    forall i, j :: 0 <= i < j < |log| && log[i].PutDone? && log[j].PutDone? ==>
      (log[i].put.client, log[i].put.id) != (log[j].put.client, log[j].put.id)
  }

  // ----- what holders remember -----

  ghost predicate OnShard(e: Event, s: Shard) {
    e.PutDone? && KeyShard(e.put.key) == s
  }

  /** The record is of this Put or of a later one by the same client. */
  ghost predicate Remembers(clients: set<Client>, rec: map<Client, LastPut>, e: Event)
    requires e.PutDone?
  {
    e.put.client in clients && e.put.client in rec && rec[e.put.client].id >= e.put.id
  }

  ghost predicate SameAt(a: Table, b: Table, key: Key) {
    (key in a <==> key in b) && (key in a ==> a[key] == b[key])
  }

  /** The data, clients and records cover everything the log says about the shard. */
  ghost predicate Holds(kv: Table, clients: set<Client>, rec: map<Client, LastPut>, log: seq<Event>, s: Shard) {
    && (forall i :: 0 <= i < |log| && OnShard(log[i], s) ==> Remembers(clients, rec, log[i]))
    && (forall key: Key :: KeyShard(key) == s ==> SameAt(Replay(log), kv, key))
  }

  /** The record tells the outcome of a Put that took effect. */
  ghost predicate Recorded(log: seq<Event>, c: Client, rec: LastPut) {
    exists i :: 0 <= i < |log| && log[i].PutDone? && log[i].put.client == c && LastPut(log[i].put.id, log[i].err) == rec
  }

  ghost predicate Truthful(rec: map<Client, LastPut>, log: seq<Event>) {
    forall c :: c in rec ==> Recorded(log, c, rec[c])
  }

  ghost predicate TruthfulAt(gs: Groups, log: seq<Event>, g: Gid) {
    Truthful(GroupAt(gs, g).lastPut, log)
  }

  ghost predicate HeldAt(gs: Groups, log: seq<Event>, g: Gid, s: Shard)
    requires AllSound(gs)
  {
    Holds(Entries(SlotAt(gs, g, s).kv), Members(SlotAt(gs, g, s).clients), GroupAt(gs, g).lastPut, log, s)
  }

  ghost predicate Hosted(h: History, c: nat, gs: Groups, log: seq<Event>, s: Shard)
    requires Numbers(h, c) && AllSound(gs)
  {
    HeldAt(gs, log, Host(h, c, gs, s), s)
  }

  /** Shard state that may replace the host's copy. */
  ghost predicate Faithful(d: ShardState, log: seq<Event>, s: Shard) {
    Holds(d.kv, d.lastPut.Keys, d.lastPut, log, s) && Truthful(d.lastPut, log)
  }

  ghost predicate Core(h: History, c: nat, gs: Groups, log: seq<Event>) {
    && Layout(h, c, gs)
    && Legal(log)
    && (forall s: Shard {:trigger Hosted(h, c, gs, log, s)} :: Hosted(h, c, gs, log, s))
    && (forall g: Gid {:trigger TruthfulAt(gs, log, g)} {:trigger GroupAt(gs, g)} :: TruthfulAt(gs, log, g))
  }

  /** Installing d under configuration b does no harm: it comes too late to matter, or it is the live copy. */
  ghost predicate Harmless(h: History, c: nat, gs: Groups, log: seq<Event>, s: Shard, d: Option<ShardState>, b: nat)
    requires Numbers(h, c) && AllSound(gs)
  {
    && b < |h|
    && (Arrived(h, gs, b, s) ||
        (b == c + 1 && OnlyFrozen(h, c, gs, s) && d.Some? && Faithful(d.value, log, s)))
  }

  // ----- the log grows -----

  lemma ReplayGrows(log: seq<Event>, e: Event)
    ensures Replay(log + [e]) == Apply(Replay(log), e)
  {
    assert (log + [e])[..|log|] == log;
  }

  lemma LegalGrows(log: seq<Event>, e: Event)
    requires Legal(log) && Honest(Replay(log), e)
    ensures Legal(log + [e])
  {
    var log' := log + [e];
    forall i | 0 <= i < |log'| ensures Honest(Replay(log'[..i]), log'[i]) {
      assert i < |log| ==> log'[..i] == log[..i];
      assert i == |log| ==> log'[..i] == log;
    }
  }

  lemma RecordedGrows(log: seq<Event>, log': seq<Event>, c: Client, rec: LastPut)
    requires log <= log' && Recorded(log, c, rec)
    ensures Recorded(log', c, rec)
  {
    var i :| 0 <= i < |log| && log[i].PutDone? && log[i].put.client == c && LastPut(log[i].put.id, log[i].err) == rec;
    assert log'[i] == log[i];
  }

  lemma TruthfulGrows(rec: map<Client, LastPut>, log: seq<Event>, log': seq<Event>)
    requires log <= log' && Truthful(rec, log)
    ensures Truthful(rec, log')
  {
    forall c | c in rec ensures Recorded(log', c, rec[c]) {
      RecordedGrows(log, log', c, rec[c]);
    }
  }

  /** An event elsewhere, and records that only get newer, change nothing for the shard. */
  lemma HoldsElsewhere(kv: Table, clients: set<Client>, rec: map<Client, LastPut>, rec': map<Client, LastPut>,
                       log: seq<Event>, e: Event, s: Shard)
    requires Holds(kv, clients, rec, log, s) && RecordsLe(rec, rec') && !OnShard(e, s)
    ensures Holds(kv, clients, rec', log + [e], s)
  {
    ReplayGrows(log, e);
    forall key: Key | KeyShard(key) == s ensures SameAt(Replay(log + [e]), kv, key) {
      assert SameAt(Replay(log), kv, key);
    }
  }

  lemma HoldsNewer(kv: Table, clients: set<Client>, rec: map<Client, LastPut>, rec': map<Client, LastPut>,
                   log: seq<Event>, s: Shard)
    requires Holds(kv, clients, rec, log, s) && RecordsLe(rec, rec')
    ensures Holds(kv, clients, rec', log, s)
  {
  }

  /** A Put applied to the shard's copy is applied to the table. */
  lemma HoldsPut(kv: Table, clients: set<Client>, rec: map<Client, LastPut>, log: seq<Event>, put: PutRequest)
    requires Holds(kv, clients, rec, log, KeyShard(put.key))
    requires put.client in rec ==> rec[put.client].id < put.id
    ensures var (kv', err) := Store(kv, put.key, put.value, put.version);
      && Honest(Replay(log), PutDone(put, err))
      && Holds(kv', clients + {put.client}, rec[put.client := LastPut(put.id, err)], log + [PutDone(put, err)],
               KeyShard(put.key))
  {
    var (kv', err) := Store(kv, put.key, put.value, put.version);
    ReplayGrows(log, PutDone(put, err));
    assert SameAt(Replay(log), kv, put.key);
    forall key: Key | KeyShard(key) == KeyShard(put.key)
      ensures SameAt(Replay(log + [PutDone(put, err)]), kv', key)
    {
      assert SameAt(Replay(log), kv, key);
    }
  }

  // ----- facts that a step keeps -----

  ghost predicate SlotsLe(gs: Groups, gs': Groups)
    requires AllSound(gs) && AllSound(gs')
  {
    forall g: Gid, s: Shard {:trigger SlotAt(gs', g, s)} :: SlotLe(SlotAt(gs, g, s), SlotAt(gs', g, s))
  }

  ghost predicate Keeps(h: History, c: nat, gs: Groups, log: seq<Event>,
                        h': History, c': nat, gs': Groups, log': seq<Event>)
    requires Numbers(h, c) && AllSound(gs) && Numbers(h', c') && AllSound(gs')
  {
    && h <= h' && c <= c' && log <= log'
    && SlotsLe(gs, gs')
    && (forall s: Shard, d: Option<ShardState>, b: nat {:trigger Harmless(h', c', gs', log', s, d, b)} ::
          Harmless(h, c, gs, log, s, d, b) ==> Harmless(h', c', gs', log', s, d, b))
  }

  /** A step that moves no shard's copy keeps what is harmless, if it logs nothing for frozen shards. */
  lemma KeepsHarmless(h: History, c: nat, gs: Groups, log: seq<Event>, h': History, c': nat, gs': Groups, log': seq<Event>,
                      s: Shard, d: Option<ShardState>, b: nat)
    requires Numbers(h, c) && AllSound(gs) && Numbers(h', c') && AllSound(gs')
    requires h <= h' && SlotsLe(gs, gs') && Harmless(h, c, gs, log, s, d, b)
    requires OnlyFrozen(h, c, gs, s) ==> c' == c && h' == h
    requires OnlyFrozen(h, c, gs, s) ==> OnlyFrozen(h, c, gs', s) || Arrived(h, gs', c + 1, s)
    requires log' == log ||
             (|log'| == |log| + 1 && log' == log + [log'[|log|]] && (OnlyFrozen(h, c, gs, s) ==> !OnShard(log'[|log|], s)))
    ensures Harmless(h', c', gs', log', s, d, b)
  {
    if Arrived(h, gs, b, s) {
      assert SlotLe(SlotAt(gs, h[b][s], s), SlotAt(gs', h[b][s], s));
    } else if log' != log {
      HoldsElsewhere(d.value.kv, d.value.lastPut.Keys, d.value.lastPut, d.value.lastPut, log, log'[|log|], s);
      TruthfulGrows(d.value.lastPut, log, log');
    }
  }
}
