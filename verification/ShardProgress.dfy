/**
 * Nothing gets stuck. From every state of every run, some continuation of the run finishes what is
 * under way: one more controller can complete the pending migration, a configuration change can be
 * carried through, and a client's call can be answered.
 */
module ShardProgress {
  import opened ShardGroup
  import opened ShardWorld
  import opened ShardLayout
  import opened ShardSafety
  import opened ShardServes

  function Last(run: seq<World>): World
    requires |run| > 0
  {
    run[|run| - 1]
  }

  lemma Extend(run: seq<World>, step: Step) returns (run': seq<World>)
    requires Run(run) && Possible(Last(run), step)
    ensures Run(run') && run <= run' && |run'| == |run| + 1 && Last(run') == After(Last(run), step)
  {
    run' := run + [After(Last(run), step)];
    forall i | 0 < i < |run'| ensures Next(run'[i - 1], run'[i]) {
      if i < |run| { assert Next(run[i - 1], run[i]); }
    }
  }

  // ----- when no migration is under way -----

  /**
   * Between migrations every shard is where the current configuration says: its owner serves it, and
   * no other group has anything of it.
   */
  lemma SettledServes(run: seq<World>, i: nat, g: Gid, s: Shard)
    requires Run(run) && i < |run| && run[i].store.next.num == run[i].store.current.num
    ensures HasStatus(run[i], g, s, if run[i].store.current.shards[s] == g then Serving else Absent)
  {
    RunInv(run, i);
    var w := run[i];
    assert SlotInv(w.history, w.store.current.num, w.groups, g, s);
    assert SlotAt(w.groups, g, s) == GroupAt(w.groups, g).slots[s];
  }

  // ----- what controllers do -----

  /** The shard changes hands. */
  predicate ChangesHands(prior: Config, config: Config, s: Shard) {
    prior.shards[s] != config.shards[s]
  }

  /** A controller that sets out to migrate, with every shard that changes hands still to be frozen. */
  ghost predicate SetsOut(m: Controller, prior: Config, config: Config) {
    && m.Migrating? && m.prior == prior && m.config == config && |m.work| == NSHARDS
    && (forall s: Shard :: Busy(m, s) <==> ChangesHands(prior, config, s))
    && (forall s: Shard :: m.work[s] == if ChangesHands(prior, config, s) then Freezing else Moved)
  }

  /**
   * A recovering controller has nothing to do if and only if the next configuration it reads is not
   * above the one it read as current; otherwise it sets out to migrate to exactly that one.
   */
  lemma RecoveryResumes(run: seq<World>, i: nat, c: nat)
    requires Run(run) && i < |run| && Possible(run[i], RecoverNext(c))
    ensures var prior := ControllerAt(run[i], c).prior; var next := run[i].store.next;
      var m := ControllerAt(After(run[i], RecoverNext(c)), c);
      && (m.Idle? <==> next.num <= prior.num)
      && (!m.Idle? ==> m.recovery && SetsOut(m, prior, next))
  {
  }

  /** If the two reads meet an unfinished migration, the controller sets out from the current configuration
      to its successor. */
  lemma RecoversAtOnce(run: seq<World>, c: nat) returns (run': seq<World>)
    requires Run(run) && ControllerAt(Last(run), c).Idle? && Last(run).store.next.num != Last(run).store.current.num
    ensures Run(run') && run <= run' && Undisturbed(Last(run), Last(run'), c)
    ensures var m := ControllerAt(Last(run'), c); var store := Last(run).store;
      && SetsOut(m, store.current, store.next) && m.recovery && m.version == store.currentVersion
      && m.config.num == m.prior.num + 1
  {
    ConfigsInStep(run, |run| - 1);
    var run1 := Extend(run, StartRecovery(c));
    run' := Extend(run1, RecoverNext(c));
    RecoveryResumes(run1, |run1| - 1, c);
  }

  /**
   * What ChangeConfigTo makes of what it reads and hears. It gives up if the configuration asked for
   * is not above the current one, or not above the next one; it sets out if its write is accepted,
   * or, unsure of that, if it finds its own number and assignment as the next configuration; once it
   * has written the current configuration it returns true, whatever the answer, and if it was
   * superseded it returns false.
   */
  lemma ChangesExactly(run: seq<World>, i: nat, step: Step)
    requires Run(run) && i < |run| && Possible(run[i], step)
    requires step.ReadOld? || step.ReadNext? || step.HearNext? || step.CheckNext? || step.HearCurrent? || step.GiveUp?
    ensures var m := ControllerAt(run[i], step.c); var m' := ControllerAt(After(run[i], step), step.c); var store := run[i].store;
      match step
      case ReadOld(_) =>
        if m.config.num <= store.current.num then m' == Returned(m.config, false)
        else m'.KnowsOld? && m'.prior == store.current && m'.config == m.config
      case ReadNext(_) =>
        if m.config.num <= store.next.num then m' == Returned(m.config, false)
        else m'.SavingNext? && m'.cas.config == m.config && m'.cas in After(run[i], step).casSent && Accepts(store, m'.cas)
      case HearNext(_, ok) =>
        if m.resent then m'.Checking? && m'.config == m.config
        else if ok then SetsOut(m', m.prior, m.config) && !m'.recovery
        else m' == Returned(m.config, false)
      case CheckNext(_) =>
        if store.next.num == m.config.num && store.next.shards == m.config.shards
        then SetsOut(m', m.prior, m.config) && !m'.recovery else m' == Returned(m.config, false)
      case HearCurrent(_, _) => if m.recovery then m' == Idle else m' == Returned(m.config, true)
      case GiveUp(_) => if m.recovery then m' == Idle else m' == Returned(m.config, false)
      case _ => true
  {
  }

  /** A shard's work goes on with an answer that is OK, one request further; any other ends the controller. */
  lemma WorkExactly(run: seq<World>, i: nat, c: nat, s: Shard, reply: Reply)
    requires Run(run) && i < |run| && Possible(run[i], HearWork(c, s, reply))
    ensures var m := ControllerAt(run[i], c); var m' := ControllerAt(After(run[i], HearWork(c, s, reply)), c);
      && (m'.Idle? <==> reply.err != OK)
      && (reply.err == OK ==>
            && m'.Migrating? && |m'.work| == NSHARDS && m' == m.(work := m'.work)
            && Remaining(m'.work[s]) + 1 == Remaining(m.work[s])
            && (forall t: Shard :: t != s ==> m'.work[t] == m.work[t])
            && (m.work[s].Freezing? && reply.FreezeReply? ==> m'.work[s] == Installing(reply.state)))
  {
  }

  // ----- one controller at work -----

  /** Only controller c and the groups have moved. */
  ghost predicate Undisturbed(w: World, w': World, c: nat) {
    && w'.store == w.store && w'.history == w.history && w'.clients == w.clients && w'.gets == w.gets
    && forall i: nat :: i != c ==> ControllerAt(w', i) == ControllerAt(w, i)
  }

  lemma RepliesOK(g: Group, req: Request)
    requires g.Valid() && DoOp(g, req).Done? && (req.Freeze? || req.Install? || req.Delete?)
    ensures DoOp(g, req).reply.err in {OK, ErrIllegalOperation}
  {
  }

  /** The request is sent and executed. */
  lemma AsksGroup(run: seq<World>, c: nat, s: Shard) returns (run': seq<World>, reply: Reply)
    requires Run(run) && Busy(ControllerAt(Last(run), c), s)
    ensures Run(run') && run <= run' && Undisturbed(Last(run), Last(run'), c)
    ensures ControllerAt(Last(run'), c) == ControllerAt(Last(run), c)
    ensures (WorkRequest(ControllerAt(Last(run), c), s), reply) in Last(run').replies
    ensures reply.err in {OK, ErrIllegalOperation}
  {
    var env := WorkRequest(ControllerAt(Last(run), c), s);
    var run1 := Extend(run, SendWork(c, s));
    GroupsNeverDie(run1, |run1| - 1, env);
    var g := GroupAt(Last(run1).groups, env.to);
    RepliesOK(g, env.request);
    reply := DoOp(g, env.request).reply;
    run' := Extend(run1, Execute(env));
  }

  /** In a migration to the successor, a shard's next request is answered OK and its work goes on. */
  lemma WorksOn(run: seq<World>, c: nat, s: Shard) returns (run': seq<World>, reply: Reply)
    requires Run(run) && var m := ControllerAt(Last(run), c); Busy(m, s) && m.config.num == m.prior.num + 1
    ensures Run(run') && run <= run' && Undisturbed(Last(run), Last(run'), c)
    ensures var m := ControllerAt(Last(run), c);
      ControllerAt(Last(run'), c) == m.(work := m.work[s := NextWork(m.work[s], reply)])
  {
    var run1;
    run1, reply := AsksGroup(run, c, s);
    AdjacentMigrationsAreLegal(run1, |run1| - 1, c, s, reply);
    run' := Extend(run1, HearWork(c, s, reply));
  }

  function Remaining(work: Work): nat {
    match work
    case Freezing => 3
    case Installing(_) => 2
    case Deleting => 1
    case _ => 0
  }

  lemma {:induction false} MovesShard(run: seq<World>, c: nat, s: Shard) returns (run': seq<World>)
    requires Run(run) && var m := ControllerAt(Last(run), c);
      m.Migrating? && |m.work| == NSHARDS && !m.work[s].Abandoned? && m.config.num == m.prior.num + 1
    ensures Run(run') && run <= run' && Undisturbed(Last(run), Last(run'), c)
    ensures var m := ControllerAt(Last(run), c); ControllerAt(Last(run'), c) == m.(work := m.work[s := Moved])
    decreases Remaining(ControllerAt(Last(run), c).work[s])
  {
    var m := ControllerAt(Last(run), c);
    if m.work[s].Moved? {
      run' := run;
      assert m.work[s := Moved] == m.work;
    } else {
      var run1, reply := WorksOn(run, c, s);
      run' := MovesShard(run1, c, s);
      assert m.work[s := NextWork(m.work[s], reply)][s := Moved] == m.work[s := Moved];
    }
  }

  ghost predicate Working(m: Controller, m0: Controller, moved: nat) {
    && m.Migrating? && m0.Migrating? && |m.work| == NSHARDS
    && m == m0.(work := m.work) && m.config.num == m.prior.num + 1
    && forall t: Shard :: !m.work[t].Abandoned? && (t < moved ==> m.work[t].Moved?)
  }

  lemma {:induction false} MovesShards(run: seq<World>, c: nat, m0: Controller, n: nat) returns (run': seq<World>)
    requires Run(run) && Working(ControllerAt(Last(run), c), m0, 0) && n <= NSHARDS
    ensures Run(run') && run <= run' && Undisturbed(Last(run), Last(run'), c)
    ensures Working(ControllerAt(Last(run'), c), m0, n)
  {
    if n == 0 {
      run' := run;
    } else {
      var run1 := MovesShards(run, c, m0, n - 1);
      run' := MovesShard(run1, c, n - 1);
    }
  }

  /** All shards moved, the configuration is written. */
  lemma Saves(run: seq<World>, c: nat) returns (run': seq<World>, cas: Cas)
    requires Run(run) && var m := ControllerAt(Last(run), c); Working(m, m, NSHARDS)
    ensures Run(run') && run <= run' && Undisturbed(Last(run), Last(run'), c)
    ensures var m := ControllerAt(Last(run), c);
      && cas == Cas(CurrentConfig, m.config, m.version, c) && cas in Last(run').casSent
      && ControllerAt(Last(run'), c) == SavingCurrent(m.config, cas, m.recovery)
  {
    var m := ControllerAt(Last(run), c);
    forall i | 0 <= i < |m.work| ensures m.work[i].Moved? {
      var t: Shard := i;
      assert m.work[t].Moved?;
    }
    cas := Cas(CurrentConfig, m.config, m.version, c);
    run' := Extend(run, SaveCurrent(c));
  }

  /** It comes into force. */
  lemma Concludes(run: seq<World>, c: nat) returns (run': seq<World>)
    requires Run(run) && var m := ControllerAt(Last(run), c);
      Working(m, m, NSHARDS) && m.version == Last(run).store.currentVersion
    ensures Run(run') && run <= run' && Last(run').clients == Last(run).clients && Last(run').gets == Last(run).gets
    ensures var m := ControllerAt(Last(run), c);
      && Last(run').store == Last(run).store.(current := m.config, currentVersion := m.version + 1)
      && ControllerAt(Last(run'), c) == if m.recovery then Idle else Returned(m.config, true)
  {
    var run1, cas := Saves(run, c);
    var run2 := Applies(run1, cas);
    run' := Extend(run2, HearCurrent(c, true));
    ChangesExactly(run2, |run2| - 1, HearCurrent(c, true));
    HeardKeeps(Last(run2), HearCurrent(c, true));
  }

  lemma HeardKeeps(w: World, step: Step)
    requires Possible(w, step) && (step.HearNext? || step.HearCurrent?)
    ensures After(w, step) == w.(controllers := After(w, step).controllers)
  {
  }

  lemma Applies(run: seq<World>, cas: Cas) returns (run': seq<World>)
    requires Run(run) && cas in Last(run).casSent && Accepts(Last(run).store, cas)
    ensures Run(run') && run <= run' && Last(run').clients == Last(run).clients && Last(run').gets == Last(run).gets
    ensures Last(run').store == Write(Last(run).store, cas) && (cas, true) in Last(run').casReplies
    ensures Last(run').controllers == Last(run).controllers
  {
    run' := Extend(run, ApplyCas(cas));
  }

  /** A controller that has just set out carries the migration through. */
  lemma Migrates(run: seq<World>, c: nat) returns (run': seq<World>)
    requires Run(run) && var m := ControllerAt(Last(run), c);
      && m.Migrating? && SetsOut(m, m.prior, m.config)
      && m.config.num == m.prior.num + 1 && m.version == Last(run).store.currentVersion
    ensures Run(run') && run <= run' && Last(run').clients == Last(run).clients && Last(run').gets == Last(run).gets
    ensures var m := ControllerAt(Last(run), c);
      && Last(run').store == Last(run).store.(current := m.config, currentVersion := m.version + 1)
      && ControllerAt(Last(run'), c) == if m.recovery then Idle else Returned(m.config, true)
  {
    var m := ControllerAt(Last(run), c);
    var run1 := MovesShards(run, c, m, NSHARDS);
    run' := Concludes(run1, c);
  }

  /** The group serves the shard if the current configuration gives it to it, and else has nothing of it. */
  ghost predicate InPlace(w: World, g: Gid, s: Shard) {
    HasStatus(w, g, s, if w.store.current.shards[s] == g then Serving else Absent)
  }

  ghost predicate InForce(w: World) {
    forall g: Gid, s: Shard :: InPlace(w, g, s)
  }

  lemma SettledInForce(run: seq<World>)
    requires Run(run) && Last(run).store.next.num == Last(run).store.current.num
    ensures InForce(Last(run))
  {
    forall g: Gid, s: Shard ensures InPlace(Last(run), g, s) {
      SettledServes(run, |run| - 1, g, s);
    }
  }

  /**
   * Whatever has been left unfinished, by however many controllers: a controller that starts up and
   * is left alone completes the migration, after which the next configuration is in force.
   */
  lemma MigrationsCanComplete(run: seq<World>, c: nat) returns (run': seq<World>)
    requires Run(run) && ControllerAt(Last(run), c).Idle?
    ensures Run(run') && run <= run' && Last(run').clients == Last(run).clients && Last(run').gets == Last(run).gets
    ensures Last(run').store.current.shards == Last(run').store.next.shards == Last(run).store.next.shards
    ensures Last(run').store.current.num == Last(run').store.next.num == Last(run).store.next.num
    ensures InForce(Last(run'))
  {
    ConfigsInStep(run, |run| - 1);
    if Last(run).store.next.num == Last(run).store.current.num {
      run' := run;
    } else {
      var run1 := RecoversAtOnce(run, c);
      run' := Migrates(run1, c);
    }
    SettledInForce(run');
  }

  /** From a settled state, a controller left alone carries any configuration change through and returns true. */
  lemma ChangesCanComplete(run: seq<World>, c: nat, config: Config) returns (run': seq<World>)
    requires Run(run) && ControllerAt(Last(run), c).Idle? && Last(run).store.next.num == Last(run).store.current.num
    requires config.num == Last(run).store.current.num + 1
    ensures Run(run') && run <= run' && ControllerAt(Last(run'), c) == Returned(config, true)
    ensures Last(run').store.current == Last(run').store.next == config && InForce(Last(run'))
  {
    StoreNumbers(run);
    var run1 := Proposes(run, c, config);
    run' := Migrates(run1, c);
    SettledInForce(run');
  }

  lemma StoreNumbers(run: seq<World>)
    requires Run(run)
    ensures var store := Last(run).store;
      1 <= store.current.num == store.currentVersion && store.next.num == store.nextVersion
  {
    RunInv(run, |run| - 1);
  }

  /** The controller reads both configurations and writes the next one. */
  lemma Asks(run: seq<World>, c: nat, config: Config) returns (run': seq<World>)
    requires Run(run) && ControllerAt(Last(run), c).Idle?
    requires 2 <= config.num == Last(run).store.current.num + 1
    ensures Run(run') && run <= run' && Undisturbed(Last(run), Last(run'), c)
    ensures var store := Last(run).store; ControllerAt(Last(run'), c) == KnowsOld(store.current, store.currentVersion, config)
  {
    var run1 := Extend(run, Ask(c, config));
    run' := Extend(run1, ReadOld(c));
  }

  lemma Writes(run: seq<World>, c: nat) returns (run': seq<World>, cas: Cas)
    requires Run(run) && var m := ControllerAt(Last(run), c); m.KnowsOld? && Last(run).store.next.num < m.config.num
    ensures Run(run') && run <= run' && Undisturbed(Last(run), Last(run'), c)
    ensures var m := ControllerAt(Last(run), c);
      && cas == Cas(NextConfig, m.config, Last(run).store.nextVersion, c) && cas in Last(run').casSent
      && ControllerAt(Last(run'), c) == SavingNext(m.prior, m.version, m.config, cas, false)
  {
    cas := Cas(NextConfig, ControllerAt(Last(run), c).config, Last(run).store.nextVersion, c);
    run' := Extend(run, ReadNext(c));
  }

  lemma Proposes(run: seq<World>, c: nat, config: Config) returns (run': seq<World>)
    requires Run(run) && ControllerAt(Last(run), c).Idle?
    requires var store := Last(run).store;
      1 <= store.next.num == store.current.num == store.currentVersion == store.nextVersion && config.num == store.current.num + 1
    ensures Run(run') && run <= run'
    ensures var store := Last(run).store; var m := ControllerAt(Last(run'), c);
      && Last(run').store == store.(next := config, nextVersion := store.nextVersion + 1)
      && SetsOut(m, store.current, config) && !m.recovery && m.version == store.currentVersion
  {
    var run1 := Proposed(run, c, config);
    run' := Extend(run1, HearNext(c, true));
    Accepted(Last(run1), c);
  }

  /** A write that is not resent, and is accepted, sets its controller out. */
  lemma Accepted(w: World, c: nat)
    requires Possible(w, HearNext(c, true)) && !ControllerAt(w, c).resent
    ensures var m := ControllerAt(w, c); var w' := After(w, HearNext(c, true)); var m' := ControllerAt(w', c);
      w'.store == w.store && SetsOut(m', m.prior, m.config) && !m'.recovery && m'.version == m.version
  {
  }

  lemma Proposed(run: seq<World>, c: nat, config: Config) returns (run': seq<World>)
    requires Run(run) && ControllerAt(Last(run), c).Idle?
    requires 2 <= config.num == Last(run).store.current.num + 1 && Last(run).store.next.num == Last(run).store.current.num
    ensures Run(run') && run <= run'
    ensures var store := Last(run).store; var m := ControllerAt(Last(run'), c);
      && Last(run').store == store.(next := config, nextVersion := store.nextVersion + 1)
      && m.SavingNext? && m.prior == store.current && m.version == store.currentVersion && m.config == config && !m.resent
      && (m.cas, true) in Last(run').casReplies
  {
    var run1 := Asks(run, c, config);
    var run2, cas := Writes(run1, c);
    run' := Applies(run2, cas);
  }

  // ----- clients -----

  /** Some controller has never started. */
  lemma IdleController(w: World) returns (c: nat)
    ensures ControllerAt(w, c).Idle?
  {
    c := if w.controllers.Keys == {} then 0 else MaxOf(w.controllers.Keys) + 1;
  }

  ghost function MaxOf(q: set<nat>): (m: nat)
    requires q != {}
    ensures m in q && forall x :: x in q ==> x <= m
  {
    var x :| x in q;
    if q == {x} then x
    else
      assert q == q - {x} + {x} && q - {x} != {};
      var y := MaxOf(q - {x});
      if x > y then x else y
  }

  /** A request is executed by its group. */
  lemma Serves(run: seq<World>, env: Envelope) returns (run': seq<World>)
    requires Run(run) && env in Last(run).sent
    ensures Possible(Last(run), Execute(env))
    ensures Run(run') && run <= run' && Last(run') == After(Last(run), Execute(env))
    ensures Last(run').clients == Last(run).clients && Last(run').gets == Last(run).gets
  {
    GroupsNeverDie(run, |run| - 1, env);
    run' := Extend(run, Execute(env));
  }

  /** In place, a Put is served by the owner of its shard. */
  lemma PutServed(run: seq<World>, cl: Client) returns (run': seq<World>, to: Gid, reply: Reply)
    requires Run(run) && InForce(Last(run)) && ClientAt(Last(run), cl).pending.Some?
    ensures Run(run') && run <= run' && Last(run').clients == Last(run).clients && reply.err != ErrWrongGroup
    ensures var put := ClientAt(Last(run), cl).pending.value;
      (Envelope(to, put, 0), reply) in Last(run').replies && TookEffect(Last(run').log, put)
  {
    var put := ClientAt(Last(run), cl).pending.value;
    to := Last(run).store.current.shards[KeyShard(put.key)];
    var env := Envelope(to, put, 0);
    var run1 := Extend(run, Call(SendPut(cl, to)));
    run' := Serves(run1, env);
    PutsServedExactly(run1, |run1| - 1, env);
    assert InPlace(Last(run), to, KeyShard(put.key));
    reply :| Last(run').replies == Last(run1).replies + {(env, reply)} && reply.err != ErrWrongGroup;
  }

  /** A pending Put can be answered: then it has taken effect, and the client is free. */
  lemma PutsCanComplete(run: seq<World>, cl: Client) returns (run': seq<World>)
    requires Run(run) && ClientAt(Last(run), cl).pending.Some?
    ensures Run(run') && run <= run' && ClientAt(Last(run'), cl).pending.None?
    ensures TookEffect(Last(run').log, ClientAt(Last(run), cl).pending.value)
  {
    var c := IdleController(Last(run));
    var run1 := MigrationsCanComplete(run, c);
    var run2, to, reply := PutServed(run1, cl);
    run' := Extend(run2, Call(HearPut(cl, to, reply)));
  }

  lemma GetServed(run: seq<World>, call: nat) returns (run': seq<World>, to: Gid, reply: Reply)
    requires Run(run) && InForce(Last(run)) && call in Last(run).gets && !Last(run).gets[call].answered
    ensures Run(run') && run <= run' && Last(run').gets == Last(run).gets && reply.err != ErrWrongGroup
    ensures (GetEnvelope(Last(run), call, to), reply) in Last(run').replies
  {
    var key := Last(run).gets[call].key;
    to := Last(run).store.current.shards[KeyShard(key)];
    var env := GetEnvelope(Last(run), call, to);
    var run1 := Extend(run, Call(SendGet(call, to)));
    run' := Serves(run1, env);
    GetsServedExactly(run1, |run1| - 1, env);
    assert InPlace(Last(run), to, KeyShard(key));
    reply :| Last(run').replies == Last(run1).replies + {(env, reply)} && reply.err != ErrWrongGroup;
  }

  /** A pending Get can be answered. */
  lemma GetsCanComplete(run: seq<World>, call: nat) returns (run': seq<World>)
    requires Run(run) && call in Last(run).gets && !Last(run).gets[call].answered
    ensures Run(run') && run <= run' && call in Last(run').gets && Last(run').gets[call].answered
  {
    var c := IdleController(Last(run));
    var run1 := MigrationsCanComplete(run, c);
    var run2, to, reply := GetServed(run1, call);
    run' := Extend(run2, Call(HearGet(call, to, reply)));
  }
}
