/**
 * The sharded store as a whole: the configuration store, any number of controllers
 * (src/shardkv/shardctrler/shardctrler.go), the shard groups and the clients
 * (src/shardkv/client.go).
 *
 * Each access to the configuration store and each request executed by a group is one step.
 * A request, once sent, may be executed any number of times and at any later time, and its
 * replies may be heard late, repeatedly or never. A controller may crash at any point.
 *
 * `history`, `asked`, `began` and `log` are history variables: no step's outcome depends on them.
 */
module ShardWorld {
  import opened ShardGroup
  import opened ShardOwners

  // ----- the configuration store -----

  datatype Config = Config(num: nat, shards: Assignment, groups: map<Gid, seq<string>>)

  /** EqualTo: the server lists are not compared. */
  predicate EqualTo(a: Config, b: Config) {
    a.num == b.num && a.shards == b.shards
  }

  datatype Field = CurrentConfig | NextConfig

  datatype ConfigStore = ConfigStore(current: Config, currentVersion: nat, next: Config, nextVersion: nat)

  /** A versioned write, as the store's clerk sends it and resends it. */
  datatype Cas = Cas(field: Field, config: Config, version: nat, sender: nat)

  predicate Accepts(store: ConfigStore, cas: Cas) {
    match cas.field
    case CurrentConfig => store.currentVersion == cas.version
    case NextConfig => store.nextVersion == cas.version
  }

  function Write(store: ConfigStore, cas: Cas): ConfigStore {
    if !Accepts(store, cas) then store
    else match cas.field
      case CurrentConfig => store.(current := cas.config, currentVersion := cas.version + 1)
      case NextConfig => store.(next := cas.config, nextVersion := cas.version + 1)
  }

  // ----- controllers -----

  /** How far the move of one shard has come, in migrateShards. */
  datatype Work = Freezing | Installing(state: Option<ShardState>) | Deleting | Moved | Abandoned

  datatype Controller =
    | Idle
    | Asked(config: Config)
    | KnowsOld(prior: Config, version: nat, config: Config)
    | SavingNext(prior: Config, version: nat, config: Config, cas: Cas, resent: bool)
    | Checking(prior: Config, version: nat, config: Config)
    | Recovering(prior: Config, version: nat)
    | Migrating(prior: Config, version: nat, config: Config, work: seq<Work>, recovery: bool)
    | SavingCurrent(config: Config, cas: Cas, recovery: bool)
    | Returned(config: Config, ok: bool)

  function Migrate(prior: Config, version: nat, config: Config, recovery: bool): (m: Controller)
    ensures m.Migrating? && |m.work| == NSHARDS
  {
    Migrating(prior, version, config,
              seq(NSHARDS, s requires 0 <= s < NSHARDS => if prior.shards[s] == config.shards[s] then Moved else Freezing),
              recovery)
  }

  /** A request under way; `from` is the number of the configuration its controller moves away from,
      and the call it belongs to if it is a Get. */
  datatype Envelope = Envelope(to: Gid, request: Request, from: nat)

  predicate Busy(m: Controller, s: Shard) {
    m.Migrating? && |m.work| == NSHARDS && (m.work[s].Freezing? || m.work[s].Installing? || m.work[s].Deleting?)
  }

  function WorkRequest(m: Controller, s: Shard): Envelope
    requires Busy(m, s)
  {
    match m.work[s]
    case Freezing => Envelope(m.prior.shards[s], Freeze(s, m.config.num), m.prior.num)
    case Installing(state) => Envelope(m.config.shards[s], Install(s, state, m.config.num), m.prior.num)
    case _ => Envelope(m.prior.shards[s], Delete(s, m.config.num), m.prior.num)
  }

  function NextWork(work: Work, reply: Reply): Work {
    match work
    case Freezing => Installing(if reply.FreezeReply? then reply.state else None)
    case Installing(_) => Deleting
    case _ => Moved
  }

  // ----- clients -----

  /** A client numbers its Puts and has at most one outstanding. */
  datatype ClientState = ClientState(counter: nat, pending: Option<PutRequest>)

  /** A call of Get, and the length of the log when it was made. */
  datatype GetCall = GetCall(key: Key, began: nat, answered: bool)

  type PutRequest = r: Request | r.Put? witness Put(0, 0, Key("", 0), "", 0)

  /** A Put that took effect, or a Get that was served. */
  datatype Event = PutDone(put: PutRequest, err: Err) | GetDone(call: nat, key: Key, reply: Reply)

  function Events(g: Group, env: Envelope, reply: Reply): seq<Event>
    requires g.Valid()
  {
    match env.request
    case Put(_, _, _, _, _) => if Applies(g, env.request) then [PutDone(env.request, reply.err)] else []
    case Get(key) => if g.slots[KeyShard(key)].status == Serving then [GetDone(env.from, key, reply)] else []
    case _ => []
  }

  // ----- the world -----

  type Groups = map<Gid, Group>

  /** A group that has not executed anything is as it was booted. */
  function GroupAt(gs: Groups, g: Gid): Group {
    if g in gs then gs[g] else Boot(g)
  }

  datatype World = World(
    history: History,
    store: ConfigStore,
    groups: Groups,
    controllers: map<nat, Controller>,
    casSent: set<Cas>,
    casReplies: set<(Cas, bool)>,
    sent: set<Envelope>,
    replies: set<(Envelope, Reply)>,
    clients: map<Client, ClientState>,
    asked: map<(Client, nat), PutRequest>,
    began: map<(Client, nat), nat>,
    gets: map<nat, GetCall>,
    log: seq<Event>
  )

  function ControllerAt(w: World, c: nat): Controller {
    if c in w.controllers then w.controllers[c] else Idle
  }

  function ClientAt(w: World, c: Client): ClientState {
    if c in w.clients then w.clients[c] else ClientState(0, None)
  }

  function GetEnvelope(w: World, call: nat, to: Gid): Envelope
    requires call in w.gets
  {
    Envelope(to, Get(w.gets[call].key), call)
  }

  ghost predicate Init(w: World) {
    && (forall s: Shard :: w.history[0][s] == GID1)
    && w.history == [w.history[0], w.history[0]]
    && w.store.current == w.store.next
    && w.store.current.num == w.store.currentVersion == w.store.nextVersion == 1
    && w.store.current.shards == w.history[0]
    && w.groups == map[] && w.controllers == map[]
    && w.casSent == {} && w.casReplies == {} && w.sent == {} && w.replies == {}
    && w.clients == map[] && w.asked == map[] && w.began == map[] && w.gets == map[] && w.log == []
  }

  datatype Step =
    | Ask(c: nat, config: Config)
    | ReadOld(c: nat)
    | ReadNext(c: nat)
    | Resend(c: nat)
    | HearNext(c: nat, ok: bool)
    | CheckNext(c: nat)
    | StartRecovery(c: nat)
    | RecoverNext(c: nat)
    | SendWork(c: nat, s: Shard)
    | HearWork(c: nat, s: Shard, reply: Reply)
    | Abandon(c: nat, s: Shard)
    | GiveUp(c: nat)
    | SaveCurrent(c: nat)
    | HearCurrent(c: nat, ok: bool)
    | Crash(c: nat)
    | ApplyCas(cas: Cas)
    | Execute(env: Envelope)
    | Call(act: ClientAct)

  /** What a client's clerk does. */
  datatype ClientAct =
    | StartPut(cl: Client, key: Key, value: string, version: nat)
    | SendPut(cl: Client, to: Gid)
    | HearPut(cl: Client, to: Gid, reply: Reply)
    | StartGet(call: nat, key: Key)
    | SendGet(call: nat, to: Gid)
    | HearGet(call: nat, to: Gid, reply: Reply)

  predicate AllDone(m: Controller) {
    m.Migrating? && forall i :: 0 <= i < |m.work| ==> m.work[i].Moved? || m.work[i].Abandoned?
  }

  ghost predicate Possible(w: World, step: Step) {
    match step
    case Ask(c, config) =>
      // the proposal is numbered one above a configuration read from the store earlier
      ControllerAt(w, c).Idle? && 2 <= config.num <= w.store.current.num + 1
    case ReadOld(c) => ControllerAt(w, c).Asked?
    case ReadNext(c) => ControllerAt(w, c).KnowsOld?
    case Resend(c) => ControllerAt(w, c).SavingNext?
    case HearNext(c, ok) => ControllerAt(w, c).SavingNext? && (ControllerAt(w, c).cas, ok) in w.casReplies
    case CheckNext(c) => ControllerAt(w, c).Checking?
    case StartRecovery(c) => ControllerAt(w, c).Idle?
    case RecoverNext(c) => ControllerAt(w, c).Recovering?
    case SendWork(c, s) => Busy(ControllerAt(w, c), s)
    case HearWork(c, s, reply) =>
      Busy(ControllerAt(w, c), s) && (WorkRequest(ControllerAt(w, c), s), reply) in w.replies
    case Abandon(c, s) =>
      Busy(ControllerAt(w, c), s) && w.store.current.num >= ControllerAt(w, c).config.num
    case GiveUp(c) => AllDone(ControllerAt(w, c)) && Abandoned in ControllerAt(w, c).work
    case SaveCurrent(c) => AllDone(ControllerAt(w, c)) && Abandoned !in ControllerAt(w, c).work
    case HearCurrent(c, ok) => ControllerAt(w, c).SavingCurrent? && (ControllerAt(w, c).cas, ok) in w.casReplies
    case Crash(c) => true
    case ApplyCas(cas) => cas in w.casSent
    case Execute(env) =>
      env in w.sent && GroupAt(w.groups, env.to).Valid() && DoOp(GroupAt(w.groups, env.to), env.request).Done?
    case Call(act) => CanCall(w, act)
  }

  predicate CanCall(w: World, act: ClientAct) {
    match act
    case StartPut(cl, key, value, version) => ClientAt(w, cl).pending.None?
    case SendPut(cl, to) => ClientAt(w, cl).pending.Some?
    case HearPut(cl, to, reply) =>
      ClientAt(w, cl).pending.Some? && (Envelope(to, ClientAt(w, cl).pending.value, 0), reply) in w.replies
    case StartGet(call, key) => call !in w.gets
    case SendGet(call, to) => call in w.gets && !w.gets[call].answered
    case HearGet(call, to, reply) =>
      call in w.gets && !w.gets[call].answered && (GetEnvelope(w, call, to), reply) in w.replies
  }

  function SetController(w: World, c: nat, state: Controller): World {
    w.(controllers := w.controllers[c := state])
  }

  predicate OnlyController(step: Step) {
    && !step.ApplyCas? && !step.Execute? && !step.Call?
    && !step.SendWork? && !step.ReadNext? && !step.SaveCurrent?
  }

  /** What a controller turns into, for the steps that change nothing else. */
  ghost function Turned(w: World, step: Step): Controller
    requires Possible(w, step) && OnlyController(step)
  {
    var me := ControllerAt(w, step.c);
    match step
    case Ask(_, config) => Asked(config)
    case ReadOld(_) =>
      if me.config.num <= w.store.current.num then Returned(me.config, false)
      else KnowsOld(w.store.current, w.store.currentVersion, me.config)
    case Resend(_) => me.(resent := true)
    case HearNext(_, ok) =>
      // a resent write is reported as ErrMaybe whatever the store answered
      if me.resent then Checking(me.prior, me.version, me.config)
      else if ok then Migrate(me.prior, me.version, me.config, false)
      else Returned(me.config, false)
    case CheckNext(_) =>
      if EqualTo(w.store.next, me.config) then Migrate(me.prior, me.version, me.config, false)
      else Returned(me.config, false)
    case StartRecovery(_) => Recovering(w.store.current, w.store.currentVersion)
    case RecoverNext(_) =>
      if me.prior.num < w.store.next.num then Migrate(me.prior, me.version, w.store.next, true) else Idle
    case HearWork(_, s, reply) =>
      // any other error makes the group's clerk panic
      if reply.err == OK then me.(work := me.work[s := NextWork(me.work[s], reply)]) else Idle
    case Abandon(_, s) => me.(work := me.work[s := Abandoned])
    case GiveUp(_) => if me.recovery then Idle else Returned(me.config, false)
    case HearCurrent(_, _) => if me.recovery then Idle else Returned(me.config, true)
    case Crash(_) => Idle
  }

  function AfterReadNext(w: World, c: nat): World
    requires ControllerAt(w, c).KnowsOld?
  {
    var me := ControllerAt(w, c);
    if w.store.next.num >= me.config.num then SetController(w, c, Returned(me.config, false))
    else
      var cas := Cas(NextConfig, me.config, w.store.nextVersion, c);
      SetController(w, c, SavingNext(me.prior, me.version, me.config, cas, false)).(casSent := w.casSent + {cas})
  }

  function AfterSaveCurrent(w: World, c: nat): World
    requires ControllerAt(w, c).Migrating?
  {
    var me := ControllerAt(w, c);
    var cas := Cas(CurrentConfig, me.config, me.version, c);
    SetController(w, c, SavingCurrent(me.config, cas, me.recovery)).(casSent := w.casSent + {cas})
  }

  function AfterApplyCas(w: World, cas: Cas): World {
    w.(store := Write(w.store, cas),
       history := if cas.field == NextConfig && Accepts(w.store, cas) then w.history + [cas.config.shards] else w.history,
       casReplies := w.casReplies + {(cas, Accepts(w.store, cas))})
  }

  function AfterExecute(w: World, env: Envelope): World
    requires GroupAt(w.groups, env.to).Valid() && DoOp(GroupAt(w.groups, env.to), env.request).Done?
  {
    var g := GroupAt(w.groups, env.to);
    var out := DoOp(g, env.request);
    w.(groups := w.groups[env.to := out.group],
       replies := w.replies + {(env, out.reply)},
       log := w.log + Events(g, env, out.reply))
  }

  function AfterStartPut(w: World, cl: Client, key: Key, value: string, version: nat): World {
    var id := ClientAt(w, cl).counter + 1;
    var put := Put(cl, id, key, value, version);
    w.(clients := w.clients[cl := ClientState(id, Some(put))],
       asked := w.asked[(cl, id) := put], began := w.began[(cl, id) := |w.log|])
  }

  /** ErrWrongGroup sends the client round its loop again. */
  function AfterHearPut(w: World, cl: Client, reply: Reply): World {
    if reply.err == ErrWrongGroup then w
    else w.(clients := w.clients[cl := ClientAt(w, cl).(pending := None)])
  }

  function AfterHearGet(w: World, call: nat, reply: Reply): World
    requires call in w.gets
  {
    if reply.err == ErrWrongGroup then w else w.(gets := w.gets[call := w.gets[call].(answered := true)])
  }

  function AfterCall(w: World, act: ClientAct): World
    requires CanCall(w, act)
  {
    match act
    case StartPut(cl, key, value, version) => AfterStartPut(w, cl, key, value, version)
    case SendPut(cl, to) => w.(sent := w.sent + {Envelope(to, ClientAt(w, cl).pending.value, 0)})
    case HearPut(cl, to, reply) => AfterHearPut(w, cl, reply)
    case StartGet(call, key) => w.(gets := w.gets[call := GetCall(key, |w.log|, false)])
    case SendGet(call, to) => w.(sent := w.sent + {GetEnvelope(w, call, to)})
    case HearGet(call, to, reply) => AfterHearGet(w, call, reply)
  }

  ghost function After(w: World, step: Step): World
    requires Possible(w, step)
  {
    match step
    case ReadNext(c) => AfterReadNext(w, c)
    case SaveCurrent(c) => AfterSaveCurrent(w, c)
    case SendWork(c, s) => w.(sent := w.sent + {WorkRequest(ControllerAt(w, c), s)})
    case ApplyCas(cas) => AfterApplyCas(w, cas)
    case Execute(env) => AfterExecute(w, env)
    case Call(act) => AfterCall(w, act)
    case _ => SetController(w, step.c, Turned(w, step))
  }

  ghost predicate Next(w: World, w': World) {
    exists step :: Possible(w, step) && w' == After(w, step)
  }

  ghost predicate Run(run: seq<World>) {
    && |run| > 0
    && Init(run[0])
    && forall i :: 0 < i < |run| ==> Next(run[i - 1], run[i])
  }
}
