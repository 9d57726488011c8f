/** Every request that can be under way, executed at any time, keeps the store's invariant. */
module ShardMigration {
  import opened ShardGroup
  import opened ShardOwners
  import opened ShardWorld
  import opened ShardLayout
  import opened ShardLedger
  import opened ShardExecution

  /** What executing the request leads to. */
  ghost predicate Executes(h: History, c: nat, gs: Groups, log: seq<Event>, env: Envelope)
    requires Core(h, c, gs, log)
  {
    assert SoundAt(gs, env.to);
    var g := GroupAt(gs, env.to);
    var out := DoOp(g, env.request);
    && out.Done?
    && var gs', log' := gs[env.to := out.group], log + Events(g, env, out.reply);
       && Core(h, c, gs', log')
       && Keeps(h, c, gs, log, h, c, gs', log')
       && ReplyOk(h, c, gs', log', env, out.reply)
  }

  lemma GetExecutes(h: History, c: nat, gs: Groups, log: seq<Event>, env: Envelope)
    requires Core(h, c, gs, log) && env.request.Get?
    ensures Executes(h, c, gs, log, env)
  {
    assert SoundAt(gs, env.to);
    var g, key := GroupAt(gs, env.to), env.request.key;
    var out := DoOp(g, env.request);
    if g.slots[KeyShard(key)].status == Serving {
      assert SlotAt(gs, env.to, KeyShard(key)).status == Serving;
      ServingIsHost(h, c, gs, env.to, KeyShard(key));
      assert Hosted(h, c, gs, log, KeyShard(key));
      assert SameAt(Replay(log), Entries(g.slots[KeyShard(key)].kv), key);
      assert Honest(Replay(log), GetDone(env.from, key, out.reply));
    }
    QuietStep(h, c, gs, log, env.to, gs[env.to := out.group], log + Events(g, env, out.reply));
  }

  lemma PutExecutes(h: History, c: nat, gs: Groups, log: seq<Event>, env: Envelope)
    requires Core(h, c, gs, log) && env.request.Put?
    ensures Executes(h, c, gs, log, env)
  {
    assert SoundAt(gs, env.to);
    var g := GroupAt(gs, env.to);
    PutSound(g, env.request);
    var out := DoPut(g, env.request);
    if Applies(g, env.request) {
      PutStep(h, c, gs, log, env.to, env.request, gs[env.to := out.group], log + [PutDone(env.request, out.reply.err)]);
    } else {
      QuietStep(h, c, gs, log, env.to, gs[env.to := g], log);
      assert log + [] == log;
    }
    PutIsLegal(gs, log, env);
  }

  /** No record says a Put was illegal, so no reply to one does. */
  lemma PutIsLegal(gs: Groups, log: seq<Event>, env: Envelope)
    requires SoundAt(gs, env.to) && env.request.Put? && DoPut(GroupAt(gs, env.to), env.request).Done?
    requires TruthfulAt(gs, log, env.to) && Legal(log)
    ensures DoPut(GroupAt(gs, env.to), env.request).reply.err != ErrIllegalOperation
  {
    var g, put := GroupAt(gs, env.to), env.request;
    if put.client in g.lastPut {
      var rec := g.lastPut[put.client];
      assert Recorded(log, put.client, rec);
      var i :| 0 <= i < |log| && log[i].PutDone? && log[i].put.client == put.client && LastPut(log[i].put.id, log[i].err) == rec;
      assert Honest(Replay(log[..i]), log[i]);
    }
  }

  /** What the holder of a shard marshals may replace its copy. */
  lemma MarshalFaithful(gs: Groups, log: seq<Event>, g: Gid, s: Shard)
    requires AllSound(gs) && SoundAt(gs, g) && HeldAt(gs, log, g, s) && TruthfulAt(gs, log, g)
    ensures Marshal(GroupAt(gs, g), s).Some? && Faithful(Marshal(GroupAt(gs, g), s).value, log, s)
  {
    assert SoundSlot(GroupAt(gs, g).slots[s], GroupAt(gs, g).lastPut.Keys);
  }

  lemma FreezeExecutes(h: History, c: nat, gs: Groups, log: seq<Event>, env: Envelope)
    requires Core(h, c, gs, log) && env.request.Freeze? && RequestOk(h, c, gs, log, env)
    ensures Executes(h, c, gs, log, env)
  {
    var to, s, b := env.to, env.request.shard, env.request.num;
    assert SoundAt(gs, to);
    var g := GroupAt(gs, to);
    var out := DoFreeze(g, s, b);
    DoOpSound(g, env.request);
    assert log + [] == log;
    assert SlotAt(gs, to, s) == g.slots[s];
    if g.slots[s].num < b && g.slots[s].status == Serving {
      var gs' := gs[to := out.group];
      FreezeStep(h, c, gs, log, to, s, b, out.group, gs');
      assert Hosted(h, c, gs', log, s) && TruthfulAt(gs', log, to);
      MarshalFaithful(gs', log, to, s);
    } else {
      QuietStep(h, c, gs, log, to, gs[to := g], log);
      FreezeQuiet(h, c, gs, log, env);
      assert forall d: Option<ShardState> :: Harmless(h, c, gs, log, s, d, b) ==> Harmless(h, c, gs[to := g], log, s, d, b);
    }
  }

  /** A Freeze that changes nothing answers with harmless state, and is not illegal if adjacent. */
  lemma FreezeQuiet(h: History, c: nat, gs: Groups, log: seq<Event>, env: Envelope)
    requires Core(h, c, gs, log) && env.request.Freeze? && RequestOk(h, c, gs, log, env)
    requires SoundAt(gs, env.to)
    requires var slot := SlotAt(gs, env.to, env.request.shard); !(slot.num < env.request.num && slot.status == Serving)
    ensures var out := DoFreeze(GroupAt(gs, env.to), env.request.shard, env.request.num);
      && out.Done? && out.group == GroupAt(gs, env.to)
      && ReplyOk(h, c, gs, log, env, out.reply)
  {
    var to, s, b := env.to, env.request.shard, env.request.num;
    DoOpSound(GroupAt(gs, to), env.request);
    assert SlotAt(gs, to, s) == GroupAt(gs, to).slots[s];
    if SlotAt(gs, to, s).num < b {
      if Adjacent(env) { SourceStands(h, c, gs, b, s); }
    } else if SlotAt(gs, to, s).num == b {
      FreezeAgain(h, c, gs, to, b, s);
      if !Arrived(h, gs, b, s) {
        assert Hosted(h, c, gs, log, s) && TruthfulAt(gs, log, to);
        MarshalFaithful(gs, log, to, s);
      }
    } else {
      FreezeLate(h, c, gs, to, b, s);
    }
  }

  lemma InstallExecutes(h: History, c: nat, gs: Groups, log: seq<Event>, env: Envelope)
    requires Core(h, c, gs, log) && env.request.Install? && RequestOk(h, c, gs, log, env)
    ensures Executes(h, c, gs, log, env)
  {
    var to, s, d, b := env.to, env.request.shard, env.request.state, env.request.num;
    assert SoundAt(gs, to);
    var g := GroupAt(gs, to);
    assert SlotAt(gs, to, s) == g.slots[s];
    assert log + [] == log;
    if g.slots[s].num < b {
      assert SlotInv(h, c, gs, to, s);
      var out := DoInstall(g, s, d, b);
      assert out.Done?;
      InstallStep(h, c, gs, log, to, s, d.value, b, gs[to := out.group]);
    } else {
      if g.slots[s].num == b { ArrivedServes(h, c, gs, b, s); }
      QuietStep(h, c, gs, log, to, gs[to := g], log);
      assert SlotAt(gs[to := g], to, s) == SlotAt(gs, to, s);
    }
  }

  lemma DeleteExecutes(h: History, c: nat, gs: Groups, log: seq<Event>, env: Envelope)
    requires Core(h, c, gs, log) && env.request.Delete? && RequestOk(h, c, gs, log, env)
    ensures Executes(h, c, gs, log, env)
  {
    var to, s, b := env.to, env.request.shard, env.request.num;
    assert SoundAt(gs, to);
    var g := GroupAt(gs, to);
    assert SlotAt(gs, to, s) == g.slots[s];
    assert log + [] == log;
    var out := DoDelete(g, s, b);
    DoOpSound(g, env.request);
    var gs' := gs[to := out.group];
    if g.slots[s].num == b && g.slots[s].status == Frozen {
      DeleteStep(h, c, gs, log, to, s, b, out.group, gs');
    } else {
      QuietStep(h, c, gs, log, to, gs', log);
      if g.slots[s].num == b { FreezeAgain(h, c, gs, to, b, s); }
      if Adjacent(env) { SourceStands(h, c, gs, b, s); }
    }
    assert SlotAt(gs', to, s) == out.group.slots[s];
  }

  lemma RequestExecutes(h: History, c: nat, gs: Groups, log: seq<Event>, env: Envelope)
    requires Core(h, c, gs, log) && RequestOk(h, c, gs, log, env)
    ensures Executes(h, c, gs, log, env)
  {
    match env.request
    case Get(_) => GetExecutes(h, c, gs, log, env);
    case Put(_, _, _, _, _) => PutExecutes(h, c, gs, log, env);
    case Freeze(_, _) => FreezeExecutes(h, c, gs, log, env);
    case Install(_, _, _) => InstallExecutes(h, c, gs, log, env);
    case Delete(_, _) => DeleteExecutes(h, c, gs, log, env);
  }
}
