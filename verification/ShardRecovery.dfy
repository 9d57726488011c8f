/**
 * Why a recovering controller can be refused. InitController reads the current and the next
 * configuration one after the other. In this run a whole migration and the proposal of another
 * come between the two reads; the recovered migration then asks a group to freeze a shard that it
 * no longer has, gets ErrIllegalOperation, and the group's clerk panics. No data is lost
 * (ShardSafety), and migrations between consecutive configurations are never refused.
 */
module ShardRecovery {
  import opened ShardGroup
  import opened ShardOwners
  import opened ShardWorld

  ghost predicate Reachable(w: World) {
    exists run :: Run(run) && run[|run| - 1] == w
  }

  lemma Reaches(w: World, step: Step)
    requires Reachable(w) && Possible(w, step)
    ensures Reachable(After(w, step))
  {
    var run :| Run(run) && run[|run| - 1] == w;
    var run' := run + [After(w, step)];
    assert run'[|run'| - 1] == After(w, step);
    assert Run(run') by {
      forall i | 0 < i < |run'| ensures Next(run'[i - 1], run'[i]) {
        if i < |run| { assert Next(run[i - 1], run[i]); }
      }
    }
  }

  // ----- moves of the run -----

  function Home(g: Gid): Assignment {
    seq(NSHARDS, s => if s == 0 then g else GID1)
  }

  /** Configuration n, under which shard 0 is at group g and all others at group 1. */
  function Conf(n: nat, g: Gid): Config {
    Config(n, Home(g), map[])
  }

  /** A controller proposes the successor of the current configuration, and it becomes the next. */
  lemma Proposes(w: World, c: nat, g: Gid) returns (w': World, cas: Cas)
    requires Reachable(w) && ControllerAt(w, c).Idle?
    requires w.store.current.num == w.store.next.num == w.store.currentVersion == w.store.nextVersion >= 1
    ensures var n := w.store.current.num;
      && Reachable(w') && w'.store == w.store.(next := Conf(n + 1, g), nextVersion := n + 1) && w'.groups == w.groups
      && ControllerAt(w', c) == SavingNext(w.store.current, n, Conf(n + 1, g), cas, false) && (cas, true) in w'.casReplies
      && forall i: nat :: i != c ==> ControllerAt(w', i) == ControllerAt(w, i)
  {
    var w2 := Asks(w, c, g);
    var w3;
    w3, cas := Writes(w2, c);
    Reaches(w3, ApplyCas(cas));
    w' := After(w3, ApplyCas(cas));
  }

  lemma Writes(w: World, c: nat) returns (w': World, cas: Cas)
    requires Reachable(w) && ControllerAt(w, c).KnowsOld? && w.store.next.num < ControllerAt(w, c).config.num
    ensures var me := ControllerAt(w, c);
      && cas == Cas(NextConfig, me.config, w.store.nextVersion, c)
      && Reachable(w') && cas in w'.casSent
      && w' == SetController(w, c, SavingNext(me.prior, me.version, me.config, cas, false)).(casSent := w'.casSent)
  {
    cas := Cas(NextConfig, ControllerAt(w, c).config, w.store.nextVersion, c);
    Reaches(w, ReadNext(c));
    w' := After(w, ReadNext(c));
  }

  lemma Asks(w: World, c: nat, g: Gid) returns (w': World)
    requires Reachable(w) && ControllerAt(w, c).Idle? && w.store.current.num >= 1
    ensures var config := Conf(w.store.current.num + 1, g);
      Reachable(w') && w' == SetController(w, c, KnowsOld(w.store.current, w.store.currentVersion, config))
  {
    var config := Conf(w.store.current.num + 1, g);
    Reaches(w, Ask(c, config));
    var w1 := After(w, Ask(c, config));
    Reaches(w1, ReadOld(c));
    w' := After(w1, ReadOld(c));
    assert w'.controllers == w.controllers[c := KnowsOld(w.store.current, w.store.currentVersion, config)];
  }

  /** A controller sends its next request for shard 0 and the group executes it. */
  lemma Requests(w: World, c: nat, g': Group, reply: Reply) returns (w': World)
    requires Reachable(w) && Busy(ControllerAt(w, c), 0)
    requires var env := WorkRequest(ControllerAt(w, c), 0);
      GroupAt(w.groups, env.to).Valid() && DoOp(GroupAt(w.groups, env.to), env.request) == Done(g', reply)
    ensures var env := WorkRequest(ControllerAt(w, c), 0);
      && Reachable(w') && w'.store == w.store && w'.groups == w.groups[env.to := g']
      && w'.controllers == w.controllers && (env, reply) in w'.replies
  {
    var env := WorkRequest(ControllerAt(w, c), 0);
    Reaches(w, SendWork(c, 0));
    var w1 := After(w, SendWork(c, 0));
    Reaches(w1, Execute(env));
    w' := After(w1, Execute(env));
  }

  /** It also hears the reply, which is OK. */
  lemma Works(w: World, c: nat, g': Group, reply: Reply) returns (w': World)
    requires Reachable(w) && Busy(ControllerAt(w, c), 0) && reply.err == OK
    requires var env := WorkRequest(ControllerAt(w, c), 0);
      GroupAt(w.groups, env.to).Valid() && DoOp(GroupAt(w.groups, env.to), env.request) == Done(g', reply)
    ensures var me := ControllerAt(w, c); var env := WorkRequest(me, 0);
      && Reachable(w') && w'.store == w.store && w'.groups == w.groups[env.to := g']
      && ControllerAt(w', c) == me.(work := me.work[0 := NextWork(me.work[0], reply)])
      && forall i: nat :: i != c ==> ControllerAt(w', i) == ControllerAt(w, i)
  {
    var w1 := Requests(w, c, g', reply);
    Reaches(w1, HearWork(c, 0, reply));
    w' := After(w1, HearWork(c, 0, reply));
  }

  // ----- the run -----

  const NOTHING := ShardState(map[], map[])

  lemma Starts() returns (w: World)
    ensures Reachable(w) && w.groups == map[] && w.controllers == map[]
    ensures w.store == ConfigStore(Conf(1, 1), 1, Conf(1, 1), 1)
  {
    w := World([Home(1), Home(1)], ConfigStore(Conf(1, 1), 1, Conf(1, 1), 1), map[], map[], {}, {}, {}, {},
               map[], map[], map[], map[], []);
    assert Init(w);
    assert Run([w]) && [w][|[w]| - 1] == w;
  }

  /** Controller 0 reads the current configuration; controller 1 proposes shard 0 for group 2. */
  lemma Overlaps() returns (w: World, cas: Cas)
    ensures Reachable(w) && w.groups == map[] && (cas, true) in w.casReplies
    ensures w.store == ConfigStore(Conf(1, 1), 1, Conf(2, 2), 2)
    ensures ControllerAt(w, 0) == Recovering(Conf(1, 1), 1) && ControllerAt(w, 2) == Idle
    ensures ControllerAt(w, 1) == SavingNext(Conf(1, 1), 1, Conf(2, 2), cas, false)
  {
    var w0 := Starts();
    Reaches(w0, StartRecovery(0));
    var w1 := After(w0, StartRecovery(0));
    assert ControllerAt(w1, 1).Idle? && ControllerAt(w1, 2).Idle?;
    w, cas := Proposes(w1, 1, 2);
  }

  lemma Migrates() returns (w: World)
    ensures Reachable(w) && w.groups == map[]
    ensures w.store == ConfigStore(Conf(1, 1), 1, Conf(2, 2), 2)
    ensures ControllerAt(w, 0) == Recovering(Conf(1, 1), 1) && ControllerAt(w, 2) == Idle
    ensures ControllerAt(w, 1) == Migrate(Conf(1, 1), 1, Conf(2, 2), false)
  {
    var w0, cas := Overlaps();
    Reaches(w0, HearNext(1, true));
    w := After(w0, HearNext(1, true));
  }

  /** Group 1 once it has handed shard 0 over under configuration 2. */
  function Handed(): Group {
    Boot(1).(slots := Boot(1).slots[0 := Slot(Absent, 2, None, None)])
  }

  /** The controller's state while it moves shard 0 to group 2. */
  ghost predicate MovingShard(m: Controller, work: Work) {
    && m.Migrating? && m.prior == Conf(1, 1) && m.version == 1 && m.config == Conf(2, 2) && !m.recovery
    && |m.work| == NSHARDS && m.work[0] == work && forall i :: 0 < i < NSHARDS ==> m.work[i] == Moved
  }

  ghost predicate Others(w: World) {
    && w.store == ConfigStore(Conf(1, 1), 1, Conf(2, 2), 2)
    && ControllerAt(w, 0) == Recovering(Conf(1, 1), 1) && ControllerAt(w, 2) == Idle
  }

  lemma Freezes() returns (w: World)
    ensures Reachable(w) && Others(w) && MovingShard(ControllerAt(w, 1), Installing(Some(NOTHING)))
    ensures w.groups == map[1 := FrozenFirst()]
  {
    var w0 := Migrates();
    FreezesEmpty();
    w := Works(w0, 1, FrozenFirst(), FreezeReply(Some(NOTHING), 2, OK));
  }

  lemma Installs() returns (w: World)
    ensures Reachable(w) && Others(w) && MovingShard(ControllerAt(w, 1), Deleting)
    ensures GroupAt(w.groups, 1) == FrozenFirst()
  {
    var w0 := Freezes();
    w := Works(w0, 1, DoInstall(Boot(2), 0, Some(NOTHING), 2).group, Plain(OK));
  }

  lemma HandsOver() returns (w: World)
    ensures Reachable(w) && Others(w) && MovingShard(ControllerAt(w, 1), Moved)
    ensures GroupAt(w.groups, 1) == Handed()
  {
    var w0 := Installs();
    assert FrozenFirst().slots[0 := Slot(Absent, 2, None, None)] == Handed().slots;
    w := Works(w0, 1, Handed(), Plain(OK));
  }

  function FrozenFirst(): Group {
    Boot(1).(slots := Boot(1).slots[0 := Slot(Frozen, 2, Some(map[]), Some({}))])
  }

  lemma FreezesEmpty()
    ensures DoFreeze(Boot(1), 0, 2) == Done(FrozenFirst(), FreezeReply(Some(NOTHING), 2, OK))
  {
    assert Marshal(FrozenFirst(), 0).value.lastPut == map[];
  }

  /** The controller has done its work and writes the configuration. */
  lemma Saves(w: World) returns (w': World, cas: Cas)
    requires Reachable(w) && Others(w) && MovingShard(ControllerAt(w, 1), Moved)
    ensures cas == Cas(CurrentConfig, Conf(2, 2), 1, 1) && cas in w'.casSent
    ensures Reachable(w') && Others(w') && w'.groups == w.groups
  {
    cas := Cas(CurrentConfig, Conf(2, 2), 1, 1);
    Reaches(w, SaveCurrent(1));
    w' := After(w, SaveCurrent(1));
  }

  /** Configuration 2 comes into force. */
  lemma Settles() returns (w: World)
    ensures Reachable(w) && GroupAt(w.groups, 1) == Handed()
    ensures w.store == ConfigStore(Conf(2, 2), 2, Conf(2, 2), 2)
    ensures ControllerAt(w, 0) == Recovering(Conf(1, 1), 1) && ControllerAt(w, 2) == Idle
  {
    var w0 := HandsOver();
    var w1, cas := Saves(w0);
    Reaches(w1, ApplyCas(cas));
    w := After(w1, ApplyCas(cas));
  }

  /** Configuration 3 is proposed. */
  lemma MovesOn() returns (w: World)
    ensures Reachable(w) && GroupAt(w.groups, 1) == Handed() && w.store.next == Conf(3, 3)
    ensures ControllerAt(w, 0) == Recovering(Conf(1, 1), 1)
  {
    var w0 := Settles();
    var cas;
    w, cas := Proposes(w0, 2, 3);
  }

  /** Controller 0 reads the next configuration, two ahead of the one it knows, and is refused. */
  lemma RecoveryIsRefused() returns (w: World, reply: Reply)
    ensures Reachable(w) && Possible(w, HearWork(0, 0, reply)) && reply.err == ErrIllegalOperation
    ensures ControllerAt(w, 0).recovery && ControllerAt(w, 0).prior.num + 2 == ControllerAt(w, 0).config.num
  {
    var w0 := MovesOn();
    Reaches(w0, RecoverNext(0));
    var w1 := After(w0, RecoverNext(0));
    reply := FreezeReply(None, 2, ErrIllegalOperation);
    w := Requests(w1, 0, Handed(), reply);
  }
}
