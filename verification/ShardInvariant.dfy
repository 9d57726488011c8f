/** The invariant of the sharded store and its preservation by every step. */
module ShardInvariant {
  import opened ShardGroup
  import opened ShardOwners
  import opened ShardWorld
  import opened ShardLayout
  import opened ShardLedger
  import opened ShardExecution
  import opened ShardMigration

  // ----- what controllers and writes under way may rely on -----

  /** The configuration was current once, and its version is its number. */
  ghost predicate WasCurrent(h: History, c: nat, prior: Config, version: nat)
    requires Numbers(h, c)
  {
    1 <= prior.num == version <= c && h[prior.num] == prior.shards
  }

  ghost predicate Handed(gs: Groups, h: History, a: nat, b: nat, s: Shard)
    requires AllSound(gs) && a < |h| && b < |h|
  {
    h[a][s] == h[b][s] || Dropped(gs, h[a][s], b, s)
  }

  ghost predicate CasOk(h: History, c: nat, gs: Groups, cas: Cas)
    requires Numbers(h, c) && AllSound(gs)
  {
    match cas.field
    case NextConfig => 2 <= cas.config.num <= c + 1 && cas.version + 1 == cas.config.num
    case CurrentConfig =>
      && 1 <= cas.version <= c && cas.version < cas.config.num < |h| && h[cas.config.num] == cas.config.shards
      && forall s: Shard :: Handed(gs, h, cas.version, cas.config.num, s)
  }

  ghost predicate CasReplyOk(h: History, c: nat, cas: Cas, ok: bool)
    requires Numbers(h, c)
  {
    match cas.field
    case NextConfig => ok ==> cas.config.num < |h| && h[cas.config.num] == cas.config.shards
    case CurrentConfig => cas.version < c
  }

  ghost predicate WorkOk(h: History, c: nat, gs: Groups, log: seq<Event>, m: Controller, s: Shard)
    requires Numbers(h, c) && AllSound(gs) && m.Migrating? && |m.work| == NSHARDS
    requires m.prior.num < m.config.num < |h|
  {
    match m.work[s]
    case Freezing => m.prior.shards[s] != m.config.shards[s]
    case Installing(d) =>
      m.prior.shards[s] != m.config.shards[s] && Harmless(h, c, gs, log, s, d, m.config.num)
    case Deleting => m.prior.shards[s] != m.config.shards[s] && Arrived(h, gs, m.config.num, s)
    case Moved => Handed(gs, h, m.prior.num, m.config.num, s)
    case Abandoned => true
  }

  ghost predicate ControllerOk(h: History, c: nat, gs: Groups, log: seq<Event>, m: Controller)
    requires Numbers(h, c) && AllSound(gs)
  {
    match m
    case Idle => true
    case Asked(config) => 2 <= config.num <= c + 1
    case KnowsOld(prior, version, config) => WasCurrent(h, c, prior, version) && config.num == prior.num + 1
    case SavingNext(prior, version, config, cas, _) =>
      && WasCurrent(h, c, prior, version) && config.num == prior.num + 1
      && cas.field == NextConfig && cas.config == config && cas.version == prior.num
    case Checking(prior, version, config) => WasCurrent(h, c, prior, version) && config.num == prior.num + 1
    case Recovering(prior, version) => WasCurrent(h, c, prior, version)
    case Migrating(prior, version, config, work, recovery) =>
      && WasCurrent(h, c, prior, version)
      && prior.num < config.num < |h| && h[config.num] == config.shards
      && (!recovery ==> config.num == prior.num + 1)
      && |work| == NSHARDS
      && forall s: Shard :: WorkOk(h, c, gs, log, m, s)
    case SavingCurrent(config, cas, recovery) =>
      cas.field == CurrentConfig && cas.config == config && (!recovery ==> config.num == cas.version + 1)
    case Returned(config, ok) => ok ==> config.num <= c
  }

  ghost predicate StoreOk(h: History, store: ConfigStore) {
    && 1 <= store.current.num <= store.next.num <= store.current.num + 1
    && store.currentVersion == store.current.num && store.nextVersion == store.next.num
    && |h| == store.next.num + 1
    && h[store.current.num] == store.current.shards && h[store.next.num] == store.next.shards
  }

  ghost predicate Inv(w: World) {
    && StoreOk(w.history, w.store)
    && var h, c, gs, log := w.history, w.store.current.num, w.groups, w.log;
       && Core(h, c, gs, log)
       && (forall env :: env in w.sent ==> RequestOk(h, c, gs, log, env))
       && (forall p :: p in w.replies ==> ReplyOk(h, c, gs, log, p.0, p.1))
       && (forall cas :: cas in w.casSent ==> CasOk(h, c, gs, cas))
       && (forall p :: p in w.casReplies ==> CasReplyOk(h, c, p.0, p.1))
       && (forall i :: i in w.controllers ==> ControllerOk(h, c, gs, log, w.controllers[i]))
  }

  // ----- facts survive -----

  lemma ArrivedKept(h: History, gs: Groups, h': History, gs': Groups, b: nat, s: Shard)
    requires AllSound(gs) && AllSound(gs') && h <= h' && SlotsLe(gs, gs') && b < |h| && Arrived(h, gs, b, s)
    ensures Arrived(h', gs', b, s)
  {
    assert SlotLe(SlotAt(gs, h[b][s], s), SlotAt(gs', h[b][s], s));
  }

  lemma DroppedKept(gs: Groups, gs': Groups, g: Gid, b: nat, s: Shard)
    requires AllSound(gs) && AllSound(gs') && SlotsLe(gs, gs') && Dropped(gs, g, b, s)
    ensures Dropped(gs', g, b, s)
  {
    assert SlotLe(SlotAt(gs, g, s), SlotAt(gs', g, s));
  }

  lemma RequestKept(h: History, c: nat, gs: Groups, log: seq<Event>, h': History, c': nat, gs': Groups, log': seq<Event>,
                    env: Envelope)
    requires Numbers(h, c) && AllSound(gs) && Numbers(h', c') && AllSound(gs')
    requires Keeps(h, c, gs, log, h', c', gs', log') && RequestOk(h, c, gs, log, env)
    ensures RequestOk(h', c', gs', log', env)
  {
    if env.request.Delete? {
      ArrivedKept(h, gs, h', gs', env.request.num, env.request.shard);
    }
  }

  lemma ReplyKept(h: History, c: nat, gs: Groups, log: seq<Event>, h': History, c': nat, gs': Groups, log': seq<Event>,
                  env: Envelope, reply: Reply)
    requires Numbers(h, c) && AllSound(gs) && Numbers(h', c') && AllSound(gs')
    requires Keeps(h, c, gs, log, h', c', gs', log') && ReplyOk(h, c, gs, log, env, reply)
    ensures ReplyOk(h', c', gs', log', env, reply)
  {
    if reply.err == OK {
      match env.request
      case Install(s, _, b) => ArrivedKept(h, gs, h', gs', b, s);
      case Delete(s, b) => DroppedKept(gs, gs', env.to, b, s);
      case _ =>
    }
  }

  lemma HandedKept(h: History, gs: Groups, h': History, gs': Groups, a: nat, b: nat, s: Shard)
    requires AllSound(gs) && AllSound(gs') && h <= h' && SlotsLe(gs, gs') && a < |h| && b < |h| && Handed(gs, h, a, b, s)
    ensures Handed(gs', h', a, b, s)
  {
    if h[a][s] != h[b][s] { DroppedKept(gs, gs', h[a][s], b, s); }
  }

  lemma CasKept(h: History, c: nat, gs: Groups, log: seq<Event>, h': History, c': nat, gs': Groups, log': seq<Event>,
                cas: Cas)
    requires Numbers(h, c) && AllSound(gs) && Numbers(h', c') && AllSound(gs')
    requires Keeps(h, c, gs, log, h', c', gs', log') && CasOk(h, c, gs, cas)
    ensures CasOk(h', c', gs', cas)
  {
    if cas.field == CurrentConfig {
      forall s: Shard ensures Handed(gs', h', cas.version, cas.config.num, s) {
        HandedKept(h, gs, h', gs', cas.version, cas.config.num, s);
      }
    }
  }

  lemma ControllerKept(h: History, c: nat, gs: Groups, log: seq<Event>, h': History, c': nat, gs': Groups,
                       log': seq<Event>, m: Controller)
    requires Numbers(h, c) && AllSound(gs) && Numbers(h', c') && AllSound(gs')
    requires Keeps(h, c, gs, log, h', c', gs', log') && ControllerOk(h, c, gs, log, m)
    ensures ControllerOk(h', c', gs', log', m)
  {
    if m.Migrating? {
      forall s: Shard ensures WorkOk(h', c', gs', log', m, s) {
        assert WorkOk(h, c, gs, log, m, s);
        match m.work[s]
        case Deleting => ArrivedKept(h, gs, h', gs', m.config.num, s);
        case Moved => HandedKept(h, gs, h', gs', m.prior.num, m.config.num, s);
        case _ =>
      }
    }
  }

  /** All facts at once. */
  lemma FactsKept(w: World, h': History, c': nat, gs': Groups, log': seq<Event>)
    requires Inv(w) && Numbers(h', c') && AllSound(gs')
    requires Keeps(w.history, w.store.current.num, w.groups, w.log, h', c', gs', log')
    ensures forall env :: env in w.sent ==> RequestOk(h', c', gs', log', env)
    ensures forall p :: p in w.replies ==> ReplyOk(h', c', gs', log', p.0, p.1)
    ensures forall cas :: cas in w.casSent ==> CasOk(h', c', gs', cas)
    ensures forall p :: p in w.casReplies ==> CasReplyOk(h', c', p.0, p.1)
    ensures forall i :: i in w.controllers ==> ControllerOk(h', c', gs', log', w.controllers[i])
  {
    var h, c, gs, log := w.history, w.store.current.num, w.groups, w.log;
    forall env | env in w.sent ensures RequestOk(h', c', gs', log', env) {
      RequestKept(h, c, gs, log, h', c', gs', log', env);
    }
    forall p | p in w.replies ensures ReplyOk(h', c', gs', log', p.0, p.1) {
      ReplyKept(h, c, gs, log, h', c', gs', log', p.0, p.1);
    }
    forall cas | cas in w.casSent ensures CasOk(h', c', gs', cas) {
      CasKept(h, c, gs, log, h', c', gs', log', cas);
    }
    forall i | i in w.controllers ensures ControllerOk(h', c', gs', log', w.controllers[i]) {
      ControllerKept(h, c, gs, log, h', c', gs', log', w.controllers[i]);
    }
  }

  // ----- the steps -----

  lemma ExecuteKeeps(w: World, env: Envelope)
    requires Inv(w) && Possible(w, Execute(env))
    ensures Inv(AfterExecute(w, env))
  {
    var h, c, gs, log := w.history, w.store.current.num, w.groups, w.log;
    RequestExecutes(h, c, gs, log, env);
    var w' := AfterExecute(w, env);
    FactsKept(w, h, c, w'.groups, w'.log);
  }

  /** A proposal is recorded as the next configuration. */
  lemma ProposeKeeps(h: History, c: nat, gs: Groups, log: seq<Event>, a: Assignment)
    requires Core(h, c, gs, log) && |h| == c + 1
    ensures Core(h + [a], c, gs, log) && Keeps(h, c, gs, log, h + [a], c, gs, log)
  {
    var h': History := h + [a];
    ProposeLayout(h, c, gs, a);
    forall s: Shard ensures Hosted(h', c, gs, log, s) {
      assert Hosted(h, c, gs, log, s);
    }
    forall s: Shard, d: Option<ShardState>, b: nat | Harmless(h, c, gs, log, s, d, b)
      ensures Harmless(h', c, gs, log, s, d, b)
    {
      KeepsHarmless(h, c, gs, log, h', c, gs, log, s, d, b);
    }
  }

  /** The next configuration becomes the current one once every moved shard has been handed over. */
  lemma CommitKeeps(h: History, c: nat, gs: Groups, log: seq<Event>, c': nat)
    requires Core(h, c, gs, log) && c' == c + 1 && |h| == c + 2
    requires forall s: Shard :: Handed(gs, h, c, c', s)
    ensures Core(h, c', gs, log) && Keeps(h, c, gs, log, h, c', gs, log)
  {
    forall s: Shard ensures Moving(h, c, s) ==> Dropped(gs, h[c][s], c', s) {
      assert Handed(gs, h, c, c', s);
    }
    CommitLayout(h, c, gs);
    forall s: Shard ensures Hosted(h, c', gs, log, s) {
      assert Hosted(h, c, gs, log, s);
    }
    forall s: Shard, d: Option<ShardState>, b: nat | Harmless(h, c, gs, log, s, d, b)
      ensures Harmless(h, c', gs, log, s, d, b)
    {
      KeepsHarmless(h, c, gs, log, h, c', gs, log, s, d, b);
    }
  }

  lemma ApplyNextKeeps(w: World, cas: Cas)
    requires Inv(w) && Possible(w, ApplyCas(cas)) && Accepts(w.store, cas) && cas.field == NextConfig
    ensures Inv(AfterApplyCas(w, cas))
  {
    var h, c, gs, log := w.history, w.store.current.num, w.groups, w.log;
    assert CasOk(h, c, gs, cas);
    ProposeKeeps(h, c, gs, log, cas.config.shards);
    FactsKept(w, AfterApplyCas(w, cas).history, c, gs, log);
  }

  lemma ApplyCurrentKeeps(w: World, cas: Cas)
    requires Inv(w) && Possible(w, ApplyCas(cas)) && Accepts(w.store, cas) && cas.field == CurrentConfig
    ensures Inv(AfterApplyCas(w, cas))
  {
    var h, c, gs, log := w.history, w.store.current.num, w.groups, w.log;
    assert CasOk(h, c, gs, cas);
    CommitKeeps(h, c, gs, log, cas.config.num);
    FactsKept(w, h, cas.config.num, gs, log);
  }

  lemma RefusedCasKeeps(w: World, cas: Cas)
    requires Inv(w) && Possible(w, ApplyCas(cas)) && !Accepts(w.store, cas)
    ensures Inv(AfterApplyCas(w, cas))
  {
    assert CasOk(w.history, w.store.current.num, w.groups, cas);
  }

  /** A migration starts with every shard to freeze or already in place. */
  lemma MigrateOk(h: History, c: nat, gs: Groups, log: seq<Event>, prior: Config, version: nat, config: Config,
                  recovery: bool)
    requires Numbers(h, c) && AllSound(gs) && WasCurrent(h, c, prior, version)
    requires prior.num < config.num < |h| && h[config.num] == config.shards
    requires !recovery ==> config.num == prior.num + 1
    ensures ControllerOk(h, c, gs, log, Migrate(prior, version, config, recovery))
  {
  }

  lemma HearWorkOk(h: History, c: nat, gs: Groups, log: seq<Event>, m: Controller, s: Shard, reply: Reply)
    requires Numbers(h, c) && AllSound(gs) && ControllerOk(h, c, gs, log, m) && Busy(m, s) && reply.err == OK
    requires ReplyOk(h, c, gs, log, WorkRequest(m, s), reply)
    ensures ControllerOk(h, c, gs, log, m.(work := m.work[s := NextWork(m.work[s], reply)]))
  {
    var m' := m.(work := m.work[s := NextWork(m.work[s], reply)]);
    forall t: Shard ensures WorkOk(h, c, gs, log, m', t) {
      assert WorkOk(h, c, gs, log, m, t);
    }
  }

  lemma HearNextKeeps(w: World, i: nat, ok: bool)
    requires Inv(w) && Possible(w, HearNext(i, ok))
    requires ControllerOk(w.history, w.store.current.num, w.groups, w.log, ControllerAt(w, i))
    ensures ControllerOk(w.history, w.store.current.num, w.groups, w.log, Turned(w, HearNext(i, ok)))
  {
    var h, c, gs, log, m := w.history, w.store.current.num, w.groups, w.log, ControllerAt(w, i);
    assert CasReplyOk(h, c, (m.cas, ok).0, (m.cas, ok).1);
    if ok { MigrateOk(h, c, gs, log, m.prior, m.version, m.config, false); }
  }

  lemma MigrateKeeps(w: World, step: Step)
    requires Inv(w) && (step.CheckNext? || step.RecoverNext?) && Possible(w, step)
    requires ControllerOk(w.history, w.store.current.num, w.groups, w.log, ControllerAt(w, step.c))
    ensures ControllerOk(w.history, w.store.current.num, w.groups, w.log, Turned(w, step))
  {
    var h, c, gs, log, m := w.history, w.store.current.num, w.groups, w.log, ControllerAt(w, step.c);
    if step.CheckNext? {
      if EqualTo(w.store.next, m.config) { MigrateOk(h, c, gs, log, m.prior, m.version, m.config, false); }
    } else {
      if m.prior.num < w.store.next.num { MigrateOk(h, c, gs, log, m.prior, m.version, w.store.next, true); }
    }
  }

  lemma WorkKeeps(w: World, step: Step)
    requires Inv(w) && (step.HearWork? || step.Abandon?) && Possible(w, step)
    requires ControllerOk(w.history, w.store.current.num, w.groups, w.log, ControllerAt(w, step.c))
    ensures ControllerOk(w.history, w.store.current.num, w.groups, w.log, Turned(w, step))
  {
    var h, c, gs, log, m := w.history, w.store.current.num, w.groups, w.log, ControllerAt(w, step.c);
    if step.HearWork? {
      var env := WorkRequest(m, step.s);
      assert ReplyOk(h, c, gs, log, (env, step.reply).0, (env, step.reply).1);
      if step.reply.err == OK { HearWorkOk(h, c, gs, log, m, step.s, step.reply); }
    } else {
      forall t: Shard ensures WorkOk(h, c, gs, log, Turned(w, step), t) {
        assert WorkOk(h, c, gs, log, m, t);
      }
    }
  }

  lemma TurnedKeeps(w: World, step: Step)
    requires Inv(w) && OnlyController(step) && Possible(w, step)
    ensures ControllerOk(w.history, w.store.current.num, w.groups, w.log, Turned(w, step))
  {
    var m := ControllerAt(w, step.c);
    assert ControllerOk(w.history, w.store.current.num, w.groups, w.log, m);
    match step
    case HearNext(i, ok) => HearNextKeeps(w, i, ok);
    case CheckNext(_) => MigrateKeeps(w, step);
    case RecoverNext(_) => MigrateKeeps(w, step);
    case HearWork(_, _, _) => WorkKeeps(w, step);
    case Abandon(_, _) => WorkKeeps(w, step);
    case HearCurrent(_, ok) =>
      assert CasReplyOk(w.history, w.store.current.num, (m.cas, ok).0, (m.cas, ok).1);
    case _ =>
  }

  lemma ControllerStepKeeps(w: World, step: Step)
    requires Inv(w) && OnlyController(step) && Possible(w, step)
    ensures Inv(SetController(w, step.c, Turned(w, step)))
  {
    TurnedKeeps(w, step);
  }

  /** Nothing but the clients' own state and their requests has changed. */
  ghost predicate OnlyClients(w: World, w': World) {
    && w'.history == w.history && w'.store == w.store && w'.groups == w.groups && w'.log == w.log
    && w'.controllers == w.controllers && w'.replies == w.replies
    && w'.casSent == w.casSent && w'.casReplies == w.casReplies
    && forall env :: env in w'.sent ==> env in w.sent || env.request.Put? || env.request.Get?
  }

  lemma CallChanges(w: World, act: ClientAct)
    requires CanCall(w, act)
    ensures OnlyClients(w, AfterCall(w, act))
  {
  }

  lemma OnlyClientsKeeps(w: World, w': World)
    requires Inv(w) && OnlyClients(w, w')
    ensures Inv(w')
  {
  }

  lemma SendWorkKeeps(w: World, i: nat, s: Shard)
    requires Inv(w) && Possible(w, SendWork(i, s))
    ensures Inv(After(w, SendWork(i, s)))
  {
    var h, c, gs, log := w.history, w.store.current.num, w.groups, w.log;
    var m := ControllerAt(w, i);
    assert ControllerOk(h, c, gs, log, m);
    assert WorkOk(h, c, gs, log, m, s);
    assert RequestOk(h, c, gs, log, WorkRequest(m, s));
  }

  lemma ReadNextKeeps(w: World, i: nat)
    requires Inv(w) && Possible(w, ReadNext(i))
    ensures Inv(AfterReadNext(w, i))
  {
    assert ControllerOk(w.history, w.store.current.num, w.groups, w.log, ControllerAt(w, i));
  }

  lemma SaveCurrentKeeps(w: World, i: nat)
    requires Inv(w) && Possible(w, SaveCurrent(i))
    ensures Inv(AfterSaveCurrent(w, i))
  {
    var h, c, gs, log := w.history, w.store.current.num, w.groups, w.log;
    var m := ControllerAt(w, i);
    assert ControllerOk(h, c, gs, log, m);
    forall s: Shard ensures Handed(gs, h, m.version, m.config.num, s) {
      assert WorkOk(h, c, gs, log, m, s);
      assert m.work[s] in m.work;
    }
  }

  lemma ApplyCasKeeps(w: World, cas: Cas)
    requires Inv(w) && cas in w.casSent
    ensures Inv(AfterApplyCas(w, cas))
  {
    if !Accepts(w.store, cas) {
      RefusedCasKeeps(w, cas);
    } else if cas.field == NextConfig {
      ApplyNextKeeps(w, cas);
    } else {
      ApplyCurrentKeeps(w, cas);
    }
  }

  lemma StepKeeps(w: World, step: Step)
    requires Inv(w) && Possible(w, step)
    ensures Inv(After(w, step))
  {
    match step
    case Call(act) =>
      CallChanges(w, act);
      OnlyClientsKeeps(w, AfterCall(w, act));
    case ApplyCas(cas) => ApplyCasKeeps(w, cas);
    case ReadNext(c) => ReadNextKeeps(w, c);
    case SaveCurrent(c) => SaveCurrentKeeps(w, c);
    case SendWork(c, s) => SendWorkKeeps(w, c, s);
    case Execute(env) => ExecuteKeeps(w, env);
    case _ => ControllerStepKeeps(w, step);
  }

  lemma InitKeeps(w: World)
    requires Init(w)
    ensures Inv(w)
  {
    var h, gs := w.history, w.groups;
    forall g: Gid ensures SoundAt(gs, g) {
      forall s: Shard ensures SoundSlot(Boot(g).slots[s], Boot(g).lastPut.Keys) {}
    }
    forall g: Gid, s: Shard ensures SlotInv(h, 1, gs, g, s) {
      assert SoundAt(gs, g);
      assert SlotAt(gs, g, s) == Boot(g).slots[s];
      assert Settled(h, 1, gs, g, s);
    }
    forall s: Shard ensures Hosted(h, 1, gs, w.log, s) {
      assert SoundAt(gs, GID1);
      assert SlotAt(gs, GID1, s) == Boot(GID1).slots[s];
    }
  }
}
