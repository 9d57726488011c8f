/**
 * A group executes a request, at any time after it was sent: what the request may rely on,
 * what its reply promises, and that the store's invariant survives.
 */
module ShardExecution {
  import opened ShardGroup
  import opened ShardOwners
  import opened ShardWorld
  import opened ShardLayout
  import opened ShardLedger

  /** The sender migrates from a configuration that held the shard elsewhere. */
  ghost predicate FromOwner(h: History, env: Envelope, s: Shard, b: nat) {
    2 <= b < |h| && env.from < b && env.to == h[env.from][s] != h[b][s]
  }

  ghost predicate RequestOk(h: History, c: nat, gs: Groups, log: seq<Event>, env: Envelope)
    requires Numbers(h, c) && AllSound(gs)
  {
    match env.request
    case Freeze(s, b) => FromOwner(h, env, s, b)
    case Install(s, d, b) => 2 <= b < |h| && env.to == h[b][s] && Harmless(h, c, gs, log, s, d, b)
    case Delete(s, b) => FromOwner(h, env, s, b) && Arrived(h, gs, b, s)
    case _ => true
  }

  /** The sender migrates from the configuration just before the one it migrates to. */
  ghost predicate Adjacent(env: Envelope) {
    && (env.request.Freeze? || env.request.Delete? ==> env.from + 1 == env.request.num)
  }

  ghost predicate ReplyOk(h: History, c: nat, gs: Groups, log: seq<Event>, env: Envelope, reply: Reply)
    requires Numbers(h, c) && AllSound(gs)
  {
    && (Adjacent(env) ==> reply.err != ErrIllegalOperation)
    && match env.request
       case Freeze(s, b) =>
         reply.FreezeReply? && (reply.err == OK ==> Harmless(h, c, gs, log, s, reply.state, b))
       case Install(s, _, b) => 2 <= b < |h| && env.to == h[b][s] && (reply.err == OK ==> Arrived(h, gs, b, s))
       case Delete(s, b) => reply.err == OK ==> Dropped(gs, env.to, b, s)
       case _ => true
  }

  // ----- replacing one group -----

  lemma ReplaceSound(gs: Groups, to: Gid, g': Group)
    requires AllSound(gs) && Sound(g')
    ensures AllSound(gs[to := g'])
  {
    var gs' := gs[to := g'];
    forall g: Gid ensures SoundAt(gs', g) {
      assert SoundAt(gs, g);
    }
  }

  /** Nothing changes but, possibly, that a Get is logged. */
  lemma QuietStep(h: History, c: nat, gs: Groups, log: seq<Event>, to: Gid, gs': Groups, log': seq<Event>)
    requires Core(h, c, gs, log) && gs' == gs[to := GroupAt(gs, to)]
    requires log' == log || (exists e: Event :: e.GetDone? && Honest(Replay(log), e) && log' == log + [e])
    ensures Core(h, c, gs', log') && Keeps(h, c, gs, log, h, c, gs', log')
  {
    assert SoundAt(gs, to);
    ReplaceSound(gs, to, GroupAt(gs, to));
    assert forall g: Gid :: GroupAt(gs', g) == GroupAt(gs, g);
    assert forall g: Gid, s: Shard :: SlotAt(gs', g, s) == SlotAt(gs, g, s);
    assert SlotAt(gs', to, 0) == SlotAt(gs, to, 0);
    SameLayout(h, c, gs, gs', to, 0);
    if log' != log {
      var e: Event :| e.GetDone? && Honest(Replay(log), e) && log' == log + [e];
      LegalGrows(log, e);
    }
    forall s: Shard ensures Hosted(h, c, gs', log', s) {
      assert Hosted(h, c, gs, log, s);
      var g := Host(h, c, gs, s);
      if log' != log {
        HoldsElsewhere(Entries(SlotAt(gs, g, s).kv), Members(SlotAt(gs, g, s).clients), GroupAt(gs, g).lastPut,
                       GroupAt(gs, g).lastPut, log, log'[|log|], s);
      }
    }
    forall g: Gid ensures TruthfulAt(gs', log', g) {
      assert TruthfulAt(gs, log, g);
      TruthfulGrows(GroupAt(gs, g).lastPut, log, log');
    }
    forall s: Shard, d: Option<ShardState>, b: nat | Harmless(h, c, gs, log, s, d, b)
      ensures Harmless(h, c, gs', log', s, d, b)
    {
      KeepsHarmless(h, c, gs, log, h, c, gs', log', s, d, b);
    }
  }

  /** A Put takes effect on the host of its shard. */
  lemma PutStep(h: History, c: nat, gs: Groups, log: seq<Event>, to: Gid, put: PutRequest, gs': Groups, log': seq<Event>)
    requires Core(h, c, gs, log)
    requires SoundAt(gs, to) && Applies(GroupAt(gs, to), put) && DoPut(GroupAt(gs, to), put).Done?
    requires gs' == gs[to := DoPut(GroupAt(gs, to), put).group]
    requires log' == log + [PutDone(put, DoPut(GroupAt(gs, to), put).reply.err)]
    ensures Core(h, c, gs', log') && Keeps(h, c, gs, log, h, c, gs', log')
  {
    var g, s0 := GroupAt(gs, to), KeyShard(put.key);
    PutSound(g, put);
    ReplaceSound(gs, to, DoPut(g, put).group);
    assert SlotAt(gs, to, s0) == g.slots[s0];
    ServingIsHost(h, c, gs, to, s0);
    assert Hosted(h, c, gs, log, s0);
    assert SoundSlot(g.slots[s0], g.lastPut.Keys);
    HoldsPut(Entries(g.slots[s0].kv), Members(g.slots[s0].clients), g.lastPut, log, put);
    LegalGrows(log, log'[|log|]);
    PutTouches(gs, to, put, gs');
    SameLayout(h, c, gs, gs', to, s0);
    forall s: Shard ensures Hosted(h, c, gs', log', s) {
      PutHosted(h, c, gs, log, to, put, gs', log', s);
    }
    forall e: Gid ensures TruthfulAt(gs', log', e) {
      PutTruthful(gs, log, to, put, gs', log', e);
    }
    forall s: Shard, d: Option<ShardState>, b: nat | Harmless(h, c, gs, log, s, d, b)
      ensures Harmless(h, c, gs', log', s, d, b)
    {
      if OnlyFrozen(h, c, gs, s) {
        assert SlotAt(gs', h[c][s], s).num == SlotAt(gs, h[c][s], s).num;
        assert SlotAt(gs', h[c + 1][s], s).num == SlotAt(gs, h[c + 1][s], s).num;
      }
      KeepsHarmless(h, c, gs, log, h, c, gs', log', s, d, b);
    }
  }

  lemma PutTouches(gs: Groups, to: Gid, put: PutRequest, gs': Groups)
    requires AllSound(gs) && AllSound(gs')
    requires SoundAt(gs, to) && Applies(GroupAt(gs, to), put) && DoPut(GroupAt(gs, to), put).Done?
    requires gs' == gs[to := DoPut(GroupAt(gs, to), put).group]
    ensures Touches(gs, gs', to, KeyShard(put.key)) && SlotsLe(gs, gs')
    ensures SlotAt(gs', to, KeyShard(put.key)).num == SlotAt(gs, to, KeyShard(put.key)).num
    ensures SlotAt(gs', to, KeyShard(put.key)).status == SlotAt(gs, to, KeyShard(put.key)).status
    ensures RecordsLe(GroupAt(gs, to).lastPut, GroupAt(gs', to).lastPut)
  {
  }

  lemma PutHosted(h: History, c: nat, gs: Groups, log: seq<Event>, to: Gid, put: PutRequest, gs': Groups,
                  log': seq<Event>, s: Shard)
    requires Core(h, c, gs, log) && AllSound(gs')
    requires SoundAt(gs, to) && Applies(GroupAt(gs, to), put) && DoPut(GroupAt(gs, to), put).Done?
    requires gs' == gs[to := DoPut(GroupAt(gs, to), put).group]
    requires log' == log + [PutDone(put, DoPut(GroupAt(gs, to), put).reply.err)]
    requires to == Host(h, c, gs, KeyShard(put.key)) && Host(h, c, gs', s) == Host(h, c, gs, s)
    requires Touches(gs, gs', to, KeyShard(put.key)) && RecordsLe(GroupAt(gs, to).lastPut, GroupAt(gs', to).lastPut)
    ensures Hosted(h, c, gs', log', s)
  {
    assert Hosted(h, c, gs, log, s);
    var e := Host(h, c, gs, s);
    if s == KeyShard(put.key) {
      var g := GroupAt(gs, to);
      assert SoundSlot(g.slots[s], g.lastPut.Keys);
      HoldsPut(Entries(g.slots[s].kv), Members(g.slots[s].clients), g.lastPut, log, put);
    } else {
      assert SlotAt(gs', e, s) == SlotAt(gs, e, s);
      HoldsElsewhere(Entries(SlotAt(gs, e, s).kv), Members(SlotAt(gs, e, s).clients), GroupAt(gs, e).lastPut,
                     GroupAt(gs', e).lastPut, log, log'[|log|], s);
    }
  }

  lemma PutTruthful(gs: Groups, log: seq<Event>, to: Gid, put: PutRequest, gs': Groups, log': seq<Event>, e: Gid)
    requires SoundAt(gs, to) && Applies(GroupAt(gs, to), put) && DoPut(GroupAt(gs, to), put).Done?
    requires gs' == gs[to := DoPut(GroupAt(gs, to), put).group]
    requires log' == log + [PutDone(put, DoPut(GroupAt(gs, to), put).reply.err)]
    requires TruthfulAt(gs, log, e)
    ensures TruthfulAt(gs', log', e)
  {
    var rec := GroupAt(gs', e).lastPut;
    forall cl | cl in rec ensures Recorded(log', cl, rec[cl]) {
      if e == to && cl == put.client {
        assert log'[|log|].put.id == put.id;
      } else {
        RecordedGrows(log, log', cl, rec[cl]);
      }
    }
  }

  /** A slot changes its number or status; nothing is logged. */
  lemma MoveStep(h: History, c: nat, gs: Groups, log: seq<Event>, to: Gid, s: Shard, gs': Groups)
    requires Core(h, c, gs, log) && Layout(h, c, gs')
    requires Touches(gs, gs', to, s) && SlotLe(SlotAt(gs, to, s), SlotAt(gs', to, s))
    requires forall g: Gid :: RecordsLe(GroupAt(gs, g).lastPut, GroupAt(gs', g).lastPut)
    requires forall g: Gid :: TruthfulAt(gs', log, g)
    requires Hosted(h, c, gs', log, s)
    requires OnlyFrozen(h, c, gs, s) ==> OnlyFrozen(h, c, gs', s) || Arrived(h, gs', c + 1, s)
    ensures Core(h, c, gs', log) && Keeps(h, c, gs, log, h, c, gs', log)
  {
    forall t: Shard ensures Hosted(h, c, gs', log, t) {
      if t != s {
        assert Hosted(h, c, gs, log, t);
        MoveHosted(h, c, gs, log, to, s, gs', t);
      }
    }
    assert SlotsLe(gs, gs') by { MoveSlots(gs, to, s, gs'); }
    forall t: Shard, d: Option<ShardState>, b: nat | Harmless(h, c, gs, log, t, d, b)
      ensures Harmless(h, c, gs', log, t, d, b)
    {
      MoveFrozen(h, c, gs, to, s, gs', t);
      KeepsHarmless(h, c, gs, log, h, c, gs', log, t, d, b);
    }
  }

  lemma MoveSlots(gs: Groups, to: Gid, s: Shard, gs': Groups)
    requires Touches(gs, gs', to, s) && SlotLe(SlotAt(gs, to, s), SlotAt(gs', to, s))
    ensures SlotsLe(gs, gs')
  {
    forall g: Gid, t: Shard ensures SlotLe(SlotAt(gs, g, t), SlotAt(gs', g, t)) {
      assert (g, t) != (to, s) ==> SlotAt(gs', g, t) == SlotAt(gs, g, t);
    }
  }

  lemma MoveFrozen(h: History, c: nat, gs: Groups, to: Gid, s: Shard, gs': Groups, t: Shard)
    requires Numbers(h, c) && Touches(gs, gs', to, s)
    ensures t != s && OnlyFrozen(h, c, gs, t) ==> OnlyFrozen(h, c, gs', t)
  {
    if t != s && OnlyFrozen(h, c, gs, t) {
      assert SlotAt(gs', h[c][t], t) == SlotAt(gs, h[c][t], t);
      assert SlotAt(gs', h[c + 1][t], t) == SlotAt(gs, h[c + 1][t], t);
    }
  }

  lemma MoveHosted(h: History, c: nat, gs: Groups, log: seq<Event>, to: Gid, s: Shard, gs': Groups, t: Shard)
    requires Numbers(h, c) && Touches(gs, gs', to, s) && t != s
    requires forall g: Gid :: RecordsLe(GroupAt(gs, g).lastPut, GroupAt(gs', g).lastPut)
    requires Hosted(h, c, gs, log, t)
    ensures Hosted(h, c, gs', log, t)
  {
    if Moving(h, c, t) {
      assert SlotAt(gs', h[c + 1][t], t) == SlotAt(gs, h[c + 1][t], t);
    }
    var g := Host(h, c, gs, t);
    assert SlotAt(gs', g, t) == SlotAt(gs, g, t);
    HoldsNewer(Entries(SlotAt(gs, g, t).kv), Members(SlotAt(gs, g, t).clients), GroupAt(gs, g).lastPut,
               GroupAt(gs', g).lastPut, log, t);
  }

  // ----- Freeze, Install, Delete taking effect -----

  /** g' differs from the group only in one slot, which keeps its data. */
  ghost predicate Relabels(g: Group, g': Group, s: Shard)
    requires g.Valid()
  {
    && g'.Valid() && g'.lastPut == g.lastPut
    && g'.slots == g.slots[s := g'.slots[s]]
  }

  lemma RelabelTouches(gs: Groups, log: seq<Event>, to: Gid, s: Shard, g': Group, gs': Groups)
    requires AllSound(gs) && SoundAt(gs, to) && Sound(g') && gs' == gs[to := g']
    requires Relabels(GroupAt(gs, to), g', s)
    requires forall g: Gid :: TruthfulAt(gs, log, g)
    ensures Touches(gs, gs', to, s) && SlotAt(gs', to, s) == g'.slots[s]
    ensures forall g: Gid :: RecordsLe(GroupAt(gs, g).lastPut, GroupAt(gs', g).lastPut)
    ensures forall g: Gid :: TruthfulAt(gs', log, g)
  {
    ReplaceSound(gs, to, g');
    forall g: Gid ensures TruthfulAt(gs', log, g) {
      assert TruthfulAt(gs, log, g);
    }
  }

  lemma FreezeStep(h: History, c: nat, gs: Groups, log: seq<Event>, to: Gid, s: Shard, b: nat, g': Group, gs': Groups)
    requires Core(h, c, gs, log) && 2 <= b < |h| && to != h[b][s]
    requires SlotAt(gs, to, s).num < b && SlotAt(gs, to, s).status == Serving
    requires SoundAt(gs, to) && Sound(g') && gs' == gs[to := g']
    requires Relabels(GroupAt(gs, to), g', s) && g'.slots[s] == SlotAt(gs, to, s).(status := Frozen, num := b)
    ensures Core(h, c, gs', log) && Keeps(h, c, gs, log, h, c, gs', log)
    ensures b == c + 1 && OnlyFrozen(h, c, gs', s) && to == h[c][s]
  {
    FreezeTakesEffect(h, c, gs, to, b, s);
    RelabelTouches(gs, log, to, s, g', gs');
    FreezeLayout(h, c, gs, gs', s);
    assert Hosted(h, c, gs', log, s) by { assert Hosted(h, c, gs, log, s); }
    MoveStep(h, c, gs, log, to, s, gs');
  }

  lemma DeleteStep(h: History, c: nat, gs: Groups, log: seq<Event>, to: Gid, s: Shard, b: nat, g': Group, gs': Groups)
    requires Core(h, c, gs, log) && 2 <= b < |h| && Arrived(h, gs, b, s)
    requires SlotAt(gs, to, s).num == b && SlotAt(gs, to, s).status == Frozen
    requires SoundAt(gs, to) && Sound(g') && gs' == gs[to := g']
    requires Relabels(GroupAt(gs, to), g', s) && g'.slots[s].status == Absent && g'.slots[s].num == b
    ensures Core(h, c, gs', log) && Keeps(h, c, gs, log, h, c, gs', log)
  {
    FrozenIsSource(h, c, gs, to, s);
    RelabelTouches(gs, log, to, s, g', gs');
    NumAtLeast(h, c, gs, h[c + 1][s], s);
    DeleteLayout(h, c, gs, gs', s);
    assert Hosted(h, c, gs', log, s) by {
      assert Hosted(h, c, gs, log, s);
      assert SlotAt(gs', h[c + 1][s], s) == SlotAt(gs, h[c + 1][s], s);
    }
    MoveStep(h, c, gs, log, to, s, gs');
  }

  lemma InstallStep(h: History, c: nat, gs: Groups, log: seq<Event>, to: Gid, s: Shard, d: ShardState, b: nat,
                    gs': Groups)
    requires Core(h, c, gs, log) && 2 <= b < |h| && to == h[b][s]
    requires Harmless(h, c, gs, log, s, Some(d), b)
    requires SlotAt(gs, to, s).num < b && SlotAt(gs, to, s).status == Absent
    requires SoundAt(gs, to) && DoInstall(GroupAt(gs, to), s, Some(d), b).Done?
    requires gs' == gs[to := DoInstall(GroupAt(gs, to), s, Some(d), b).group]
    ensures Core(h, c, gs', log) && Keeps(h, c, gs, log, h, c, gs', log)
    ensures Arrived(h, gs', b, s)
  {
    InstallTouches(gs, log, to, s, d, b, gs');
    InstallLayout(h, c, gs, gs', s);
    assert Hosted(h, c, gs', log, s) by {
      HoldsNewer(d.kv, d.lastPut.Keys, d.lastPut, GroupAt(gs', to).lastPut, log, s);
    }
    MoveStep(h, c, gs, log, to, s, gs');
  }

  lemma InstallTouches(gs: Groups, log: seq<Event>, to: Gid, s: Shard, d: ShardState, b: nat, gs': Groups)
    requires AllSound(gs) && SoundAt(gs, to) && SlotAt(gs, to, s).num < b && SlotAt(gs, to, s).status == Absent
    requires DoInstall(GroupAt(gs, to), s, Some(d), b).Done?
    requires gs' == gs[to := DoInstall(GroupAt(gs, to), s, Some(d), b).group]
    requires Truthful(d.lastPut, log) && forall g: Gid :: TruthfulAt(gs, log, g)
    ensures Touches(gs, gs', to, s)
    ensures SlotAt(gs', to, s) == Slot(Serving, b, Some(d.kv), Some(d.lastPut.Keys))
    ensures RecordsLe(d.lastPut, GroupAt(gs', to).lastPut)
    ensures forall g: Gid :: RecordsLe(GroupAt(gs, g).lastPut, GroupAt(gs', g).lastPut)
    ensures forall g: Gid :: TruthfulAt(gs', log, g)
  {
    DoOpSound(GroupAt(gs, to), Install(s, Some(d), b));
    ReplaceSound(gs, to, DoInstall(GroupAt(gs, to), s, Some(d), b).group);
    forall g: Gid ensures TruthfulAt(gs', log, g) {
      assert TruthfulAt(gs, log, g);
    }
  }
}
