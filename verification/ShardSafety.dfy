/** What holds in every run of the sharded store. */
module ShardSafety {
  import opened ShardGroup
  import opened ShardOwners
  import opened ShardWorld
  import opened ShardLayout
  import opened ShardLedger
  import opened ShardExecution
  import opened ShardMigration
  import opened ShardInvariant
  import opened ShardClients

  lemma {:induction false} RunInv(run: seq<World>, i: nat)
    requires Run(run) && i < |run|
    ensures Inv(run[i]) && ClientInv(run[i])
  {
    if i == 0 {
      InitKeeps(run[0]);
    } else {
      RunInv(run, i - 1);
      assert Next(run[i - 1], run[i]);
      var step :| Possible(run[i - 1], step) && run[i] == After(run[i - 1], step);
      StepKeeps(run[i - 1], step);
      StepKeepsClients(run[i - 1], step);
    }
  }

  // ----- data -----

  ghost predicate HasStatus(w: World, g: Gid, s: Shard, status: Status) {
    var group := GroupAt(w.groups, g);
    group.Valid() && group.slots[s].status == status
  }

  /** At most one group serves a shard, whatever controllers do. */
  lemma OneServingGroup(run: seq<World>, i: nat, s: Shard, g1: Gid, g2: Gid)
    requires Run(run) && i < |run| && HasStatus(run[i], g1, s, Serving) && HasStatus(run[i], g2, s, Serving)
    ensures g1 == g2
  {
    RunInv(run, i);
    var w := run[i];
    assert SlotAt(w.groups, g1, s).status == Serving && SlotAt(w.groups, g2, s).status == Serving;
    ServingIsHost(w.history, w.store.current.num, w.groups, g1, s);
    ServingIsHost(w.history, w.store.current.num, w.groups, g2, s);
  }

  /** The group holds all the Puts on the shard that ever took effect, and nothing else. */
  ghost predicate HoldsEverything(w: World, g: Gid, s: Shard) {
    var group := GroupAt(w.groups, g);
    && group.Valid()
    && group.slots[s].status != Absent
    && forall key: Key :: KeyShard(key) == s ==> SameAt(Replay(w.log), Entries(group.slots[s].kv), key)
  }

  /**
   * Migration conserves data: some group always holds the whole shard; it is the one that serves
   * it, if any does, and until the new owner has installed the shard it is the frozen copy.
   */
  lemma DataIsConserved(run: seq<World>, i: nat, s: Shard) returns (host: Gid)
    requires Run(run) && i < |run|
    ensures HoldsEverything(run[i], host, s)
    ensures forall g: Gid :: HasStatus(run[i], g, s, Serving) ==> g == host
    ensures !HasStatus(run[i], host, s, Serving) ==> forall g: Gid :: HasStatus(run[i], g, s, Frozen) ==> g == host
  {
    RunInv(run, i);
    var w := run[i];
    var h, c, gs := w.history, w.store.current.num, w.groups;
    host := Host(h, c, gs, s);
    HostHolds(h, c, gs, s);
    assert Hosted(h, c, gs, w.log, s);
    forall g: Gid ensures SoundAt(gs, g) && GroupAt(gs, g).slots[s] == SlotAt(gs, g, s) {
      assert SoundAt(gs, g);
    }
    forall g: Gid | HasStatus(w, g, s, Serving) ensures g == host {
      ServingIsHost(h, c, gs, g, s);
    }
    forall g: Gid | HasStatus(w, g, s, Frozen) && !HasStatus(w, host, s, Serving) ensures g == host {
      FrozenIsSource(h, c, gs, g, s);
      assert SlotInv(h, c, gs, host, s);
      LastMoveBounds(h, c, host, s);
    }
  }

  /**
   * An Install under way, executed now, changes the group only if it carries everything the shard
   * holds: nil state, and the empty state of a shard that has moved on, are no-ops.
   */
  lemma StaleInstallsAreNoOps(run: seq<World>, i: nat, env: Envelope)
    requires Run(run) && i < |run| && env in run[i].sent && env.request.Install?
    ensures GroupAt(run[i].groups, env.to).Valid()
    ensures var out := DoOp(GroupAt(run[i].groups, env.to), env.request);
      && out.Done?
      && (out.group != GroupAt(run[i].groups, env.to) ==>
            env.request.state.Some? && Faithful(env.request.state.value, run[i].log, env.request.shard))
  {
    RunInv(run, i);
    var w := run[i];
    var h, c, gs, log := w.history, w.store.current.num, w.groups, w.log;
    assert SoundAt(gs, env.to);
    assert SlotAt(gs, env.to, env.request.shard) == GroupAt(gs, env.to).slots[env.request.shard];
    RequestExecutes(h, c, gs, log, env);
  }

  /** A group that has given a shard up, or never had it, keeps nothing of it. */
  lemma AbsentShardsAreEmpty(run: seq<World>, i: nat, g: Gid, s: Shard)
    requires Run(run) && i < |run| && HasStatus(run[i], g, s, Absent)
    ensures var slot := GroupAt(run[i].groups, g).slots[s]; Entries(slot.kv) == map[] && Members(slot.clients) == {}
  {
    RunInv(run, i);
    assert SoundAt(run[i].groups, g);
    assert SoundSlot(GroupAt(run[i].groups, g).slots[s], GroupAt(run[i].groups, g).lastPut.Keys);
  }

  /** No request under way can kill the group that executes it. */
  lemma GroupsNeverDie(run: seq<World>, i: nat, env: Envelope)
    requires Run(run) && i < |run| && env in run[i].sent
    ensures GroupAt(run[i].groups, env.to).Valid() && DoOp(GroupAt(run[i].groups, env.to), env.request).Done?
  {
    RunInv(run, i);
    var w := run[i];
    assert SoundAt(w.groups, env.to);
    RequestExecutes(w.history, w.store.current.num, w.groups, w.log, env);
  }

  // ----- one table -----

  /**
   * The sharded store behaves like one versioned table: the operations served so far, in the order
   * in which they were served, were each answered as that table would have answered.
   */
  lemma OneTable(run: seq<World>, i: nat)
    requires Run(run) && i < |run|
    ensures Legal(run[i].log)
  {
    RunInv(run, i);
  }

  /** However often a Put is retried, delayed or sent to another group, it takes effect at most once. */
  lemma PutsTakeEffectOnce(run: seq<World>, i: nat)
    requires Run(run) && i < |run|
    ensures Once(run[i].log)
    ensures forall j :: 0 <= j < |run[i].log| && run[i].log[j].PutDone? ==> IsAsked(run[i].asked, run[i].log[j].put)
  {
    RunInv(run, i);
  }

  /** The current host of a shard remembers every Put that took effect on it. */
  lemma HostRemembers(run: seq<World>, i: nat, g: Gid, j: nat)
    requires Run(run) && i < |run| && j < |run[i].log| && run[i].log[j].PutDone?
    requires HasStatus(run[i], g, KeyShard(run[i].log[j].put.key), Serving)
    ensures var put := run[i].log[j].put;
      put.client in GroupAt(run[i].groups, g).lastPut && GroupAt(run[i].groups, g).lastPut[put.client].id >= put.id
  {
    RunInv(run, i);
    var w := run[i];
    var s := KeyShard(w.log[j].put.key);
    assert SlotAt(w.groups, g, s).status == Serving;
    ServingIsHost(w.history, w.store.current.num, w.groups, g, s);
    assert Hosted(w.history, w.store.current.num, w.groups, w.log, s);
    assert OnShard(w.log[j], s);
  }

  /** The answer a client accepts for its Put is the outcome of that very Put, the only time it took effect. */
  lemma AnswersAreTrue(run: seq<World>, i: nat, cl: Client, to: Gid, reply: Reply) returns (j: nat)
    requires Run(run) && i < |run| && CanCall(run[i], HearPut(cl, to, reply)) && reply.err != ErrWrongGroup
    ensures j < |run[i].log| && run[i].log[j] == PutDone(ClientAt(run[i], cl).pending.value, reply.err)
    ensures forall k :: 0 <= k < |run[i].log| && k != j && run[i].log[k].PutDone? ==>
              run[i].log[k].put != ClientAt(run[i], cl).pending.value
  {
    RunInv(run, i);
    var w := run[i];
    var put := ClientAt(w, cl).pending.value;
    var p := (Envelope(to, put, 0), reply);
    assert p in w.replies && ClientReplyOk(w, p.0, p.1);
    assert PendingOk(w, cl);
    j :| 0 <= j < |w.log| && w.log[j].PutDone? && w.log[j].put.client == put.client &&
      LastPut(w.log[j].put.id, w.log[j].err) == LastPut(put.id, reply.err);
    assert IsAsked(w.asked, w.log[j].put);
  }

  // ----- controllers -----

  /**
   * A migration whose old configuration is the predecessor of its new one never gets
   * ErrIllegalOperation, so the group's clerk never panics. Every ChangeConfigTo is one.
   */
  lemma AdjacentMigrationsAreLegal(run: seq<World>, i: nat, c: nat, s: Shard, reply: Reply)
    requires Run(run) && i < |run| && Possible(run[i], HearWork(c, s, reply))
    ensures var m := ControllerAt(run[i], c);
      && (!m.recovery ==> m.prior.num + 1 == m.config.num)
      && (m.prior.num + 1 == m.config.num ==> reply.err != ErrIllegalOperation)
  {
    RunInv(run, i);
    var w := run[i];
    var m := ControllerAt(w, c);
    assert ControllerOk(w.history, w.store.current.num, w.groups, w.log, m);
    var p := (WorkRequest(m, s), reply);
    assert p in w.replies && ReplyOk(w.history, w.store.current.num, w.groups, w.log, p.0, p.1);
  }

  /**
   * Exactly when a group refuses a controller: it did not own the shard under the configuration
   * just before the one migrated to, and has recorded nothing as recent. Installs are never refused.
   */
  lemma RefusedExactly(run: seq<World>, i: nat, env: Envelope)
    requires Run(run) && i < |run| && env in run[i].sent && !env.request.Get? && !env.request.Put?
    ensures var g := GroupAt(run[i].groups, env.to); var s := env.request.shard; var b := env.request.num;
      && g.Valid() && DoOp(g, env.request).Done? && 2 <= b < |run[i].history|
      && (DoOp(g, env.request).reply.err == ErrIllegalOperation <==>
            !env.request.Install? && g.slots[s].num < b && run[i].history[b - 1][s] != env.to)
  {
    RunInv(run, i);
    var w := run[i];
    var h, c, gs, log := w.history, w.store.current.num, w.groups, w.log;
    assert SoundAt(gs, env.to);
    RequestExecutes(h, c, gs, log, env);
    assert RequestOk(h, c, gs, log, env);
    Refusal(h, c, gs, log, env);
  }

  lemma Refusal(h: History, c: nat, gs: Groups, log: seq<Event>, env: Envelope)
    requires Core(h, c, gs, log) && RequestOk(h, c, gs, log, env) && !env.request.Get? && !env.request.Put?
    requires SoundAt(gs, env.to) && DoOp(GroupAt(gs, env.to), env.request).Done?
    ensures var s := env.request.shard; var b := env.request.num;
      DoOp(GroupAt(gs, env.to), env.request).reply.err == ErrIllegalOperation <==>
        !env.request.Install? && SlotAt(gs, env.to, s).num < b && h[b - 1][s] != env.to
  {
    var s, b := env.request.shard, env.request.num;
    var slot := SlotAt(gs, env.to, s);
    assert slot == GroupAt(gs, env.to).slots[s];
    if env.request.Install? {
      InstallAccepted(h, c, gs, log, env);
    } else {
      if slot.num == b { FreezeAgain(h, c, gs, env.to, b, s); }
      if h[b - 1][s] == env.to { SourceStands(h, c, gs, b, s); }
      if slot.num < b && slot.status == Serving { FreezeTakesEffect(h, c, gs, env.to, b, s); }
    }
  }

  lemma InstallAccepted(h: History, c: nat, gs: Groups, log: seq<Event>, env: Envelope)
    requires Core(h, c, gs, log) && RequestOk(h, c, gs, log, env) && env.request.Install?
    requires SoundAt(gs, env.to) && DoOp(GroupAt(gs, env.to), env.request).Done?
    ensures DoOp(GroupAt(gs, env.to), env.request).reply.err != ErrIllegalOperation
  {
    var s, b := env.request.shard, env.request.num;
    var slot := SlotAt(gs, env.to, s);
    assert slot == GroupAt(gs, env.to).slots[s];
    if slot.num == b { ArrivedServes(h, c, gs, b, s); }
    assert SlotInv(h, c, gs, env.to, s);
  }

  /** The next configuration is the current one or its successor. */
  lemma ConfigsInStep(run: seq<World>, i: nat)
    requires Run(run) && i < |run|
    ensures 1 <= run[i].store.current.num <= run[i].store.next.num <= run[i].store.current.num + 1
    ensures run[i].store.next.num == run[i].store.current.num ==> run[i].store.next.shards == run[i].store.current.shards
  {
    RunInv(run, i);
  }

  /** Controllers that migrate to the same number agree on where the shards go, and so does the store. */
  lemma ControllersAgree(run: seq<World>, i: nat, c1: nat, c2: nat)
    requires Run(run) && i < |run|
    requires ControllerAt(run[i], c1).Migrating? && ControllerAt(run[i], c2).Migrating?
    requires ControllerAt(run[i], c1).config.num == ControllerAt(run[i], c2).config.num
    ensures ControllerAt(run[i], c1).config.shards == ControllerAt(run[i], c2).config.shards
    ensures ControllerAt(run[i], c1).config.num == run[i].store.next.num ==>
              ControllerAt(run[i], c1).config.shards == run[i].store.next.shards
    ensures ControllerAt(run[i], c1).config.num == run[i].store.current.num ==>
              ControllerAt(run[i], c1).config.shards == run[i].store.current.shards
  {
    RunInv(run, i);
    var w := run[i];
    assert ControllerOk(w.history, w.store.current.num, w.groups, w.log, ControllerAt(w, c1));
    assert ControllerOk(w.history, w.store.current.num, w.groups, w.log, ControllerAt(w, c2));
  }

  /** ChangeConfigTo returns true only when its configuration, or a later one, is in force. */
  lemma TrueMeansInForce(run: seq<World>, i: nat, c: nat)
    requires Run(run) && i < |run| && ControllerAt(run[i], c).Returned? && ControllerAt(run[i], c).ok
    ensures run[i].store.current.num >= ControllerAt(run[i], c).config.num
  {
    RunInv(run, i);
    var w := run[i];
    assert ControllerOk(w.history, w.store.current.num, w.groups, w.log, ControllerAt(w, c));
  }
}
