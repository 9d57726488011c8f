/**
 * The state machine of one shard group (src/shardkv/shardgrp/server.go), on values.
 *
 * A request either runs to a reply or ends the process: `Fatal` stands for a Go panic
 * (writing to a nil map) and for `log.Fatal` (undecodable shard state).
 */
module ShardGroup {

  const NSHARDS := 12
  const GID1 := 1

  type Shard = s: nat | s < NSHARDS
  type Gid = nat
  type Client = nat

  datatype Option<T> = None | Some(value: T)

  /** A key, with the 32-bit FNV hash that decides its shard. */
  datatype Key = Key(name: string, hash: nat)

  function KeyShard(key: Key): Shard {
    key.hash % NSHARDS
  }

  datatype VersionedValue = VersionedValue(value: string, version: nat)

  type Table = map<Key, VersionedValue>

  datatype Err = OK | ErrNoKey | ErrVersion | ErrWrongGroup | ErrIllegalOperation

  datatype LastPut = LastPut(id: nat, err: Err)

  datatype Status = Absent | Serving | Frozen

  /** What one shard's arrays hold: a nil map is None. */
  datatype Slot = Slot(status: Status, num: nat, kv: Option<Table>, clients: Option<set<Client>>)

  datatype Group = Group(slots: seq<Slot>, lastPut: map<Client, LastPut>) {
    ghost predicate Valid() {
      |slots| == NSHARDS
    }
  }

  /** What travels from the old owner of a shard to the new one. */
  datatype ShardState = ShardState(kv: Table, lastPut: map<Client, LastPut>)

  datatype Request =
    | Get(key: Key)
    | Put(client: Client, id: nat, key: Key, value: string, version: nat)
    | Freeze(shard: Shard, num: nat)
    | Install(shard: Shard, state: Option<ShardState>, num: nat)
    | Delete(shard: Shard, num: nat)

  datatype Reply =
    | GetReply(value: string, version: nat, err: Err)
    | FreezeReply(state: Option<ShardState>, num: nat, err: Err)
    | Plain(err: Err)

  datatype Outcome = Fatal | Done(group: Group, reply: Reply)

  function Boot(gid: Gid): (g: Group)
    ensures g.Valid()
  {
    var slot := if gid == GID1 then Slot(Serving, 1, Some(map[]), Some({})) else Slot(Absent, 0, Some(map[]), Some({}));
    Group(seq(NSHARDS, _ => slot), map[])
  }

  function Entries<K, V>(m: Option<map<K, V>>): map<K, V> {
    if m.Some? then m.value else map[]
  }

  function Members<K(==)>(m: Option<set<K>>): set<K> {
    if m.Some? then m.value else {}
  }

  // ----- the versioned table -----

  function Lookup(t: Table, key: Key): Reply {
    if key in t then GetReply(t[key].value, t[key].version, OK) else GetReply("", 0, ErrNoKey)
  }

  function Store(t: Table, key: Key, value: string, version: nat): (Table, Err) {
    if key in t then
      if t[key].version == version then (t[key := VersionedValue(value, version + 1)], OK) else (t, ErrVersion)
    else
      if version == 0 then (t[key := VersionedValue(value, 1)], OK) else (t, ErrNoKey)
  }

  // ----- DoOp -----

  function DoGet(g: Group, key: Key): Reply
    requires g.Valid()
  {
    var slot := g.slots[KeyShard(key)];
    if slot.status != Serving then GetReply("", 0, ErrWrongGroup) else Lookup(Entries(slot.kv), key)
  }

  /** The Put gets past the ownership and duplicate tests. */
  predicate Applies(g: Group, put: Request)
    requires g.Valid() && put.Put?
  {
    && g.slots[KeyShard(put.key)].status == Serving
    && (put.client in g.lastPut ==> g.lastPut[put.client].id < put.id)
  }

  function DoPut(g: Group, put: Request): Outcome
    requires g.Valid() && put.Put?
  {
    var s := KeyShard(put.key);
    var slot := g.slots[s];
    if slot.status != Serving then Done(g, Plain(ErrWrongGroup))
    else if !Applies(g, put) then Done(g, Plain(g.lastPut[put.client].err))
    else
      var (table, err) := Store(Entries(slot.kv), put.key, put.value, put.version);
      if (slot.kv.None? && table != map[]) || slot.clients.None? then Fatal
      else
        var slot' := slot.(kv := if slot.kv.Some? then Some(table) else None,
                           clients := Some(slot.clients.value + {put.client}));
        Done(Group(g.slots[s := slot'], g.lastPut[put.client := LastPut(put.id, err)]), Plain(err))
  }

  /** marshallShardState: a client recorded for the shard but without a last Put cannot be encoded. */
  function Marshal(g: Group, s: Shard): Option<ShardState>
    requires g.Valid()
  {
    var clients := Members(g.slots[s].clients);
    if clients <= g.lastPut.Keys
    then Some(ShardState(Entries(g.slots[s].kv), map c | c in clients :: g.lastPut[c]))
    else None
  }

  function FreezeAnswer(g: Group, s: Shard, num: nat): Outcome
    requires g.Valid()
  {
    match Marshal(g, s)
    case None => Fatal
    case Some(state) => Done(g, FreezeReply(Some(state), num, OK))
  }

  function DoFreeze(g: Group, s: Shard, num: nat): Outcome
    requires g.Valid()
  {
    var slot := g.slots[s];
    if num > slot.num then
      if slot.status == Serving
      then FreezeAnswer(g.(slots := g.slots[s := slot.(status := Frozen, num := num)]), s, num)
      else Done(g, FreezeReply(None, slot.num, ErrIllegalOperation))
    else if num == slot.num then
      if slot.status != Serving
      then FreezeAnswer(g, s, num)
      else Done(g, FreezeReply(None, num, ErrIllegalOperation))
    else Done(g, FreezeReply(None, slot.num, OK))
  }

  /** Records with the larger request id win. */
  function Newer(mine: map<Client, LastPut>, theirs: map<Client, LastPut>): map<Client, LastPut> {
    map c | c in mine.Keys + theirs.Keys ::
      if c in theirs && (c in mine ==> theirs[c].id > mine[c].id) then theirs[c] else mine[c]
  }

  function DoInstall(g: Group, s: Shard, state: Option<ShardState>, num: nat): Outcome
    requires g.Valid()
  {
    var slot := g.slots[s];
    if num > slot.num then
      if slot.status != Absent then Done(g, Plain(ErrIllegalOperation))
      else if state.None? then Fatal
      else
        var slot' := Slot(Serving, num, Some(state.value.kv), Some(state.value.lastPut.Keys));
        Done(Group(g.slots[s := slot'], Newer(g.lastPut, state.value.lastPut)), Plain(OK))
    else if num == slot.num then
      Done(g, Plain(if slot.status == Serving then OK else ErrIllegalOperation))
    else Done(g, Plain(OK))
  }

  function DoDelete(g: Group, s: Shard, num: nat): Outcome
    requires g.Valid()
  {
    var slot := g.slots[s];
    if num == slot.num then
      match slot.status
      case Frozen => Done(g.(slots := g.slots[s := Slot(Absent, num, None, None)]), Plain(OK))
      case Absent => Done(g, Plain(OK))
      case Serving => Done(g, Plain(ErrIllegalOperation))
    else Done(g, Plain(if num > slot.num then ErrIllegalOperation else OK))
  }

  function DoOp(g: Group, req: Request): Outcome
    requires g.Valid()
  {
    match req
    case Get(key) => Done(g, DoGet(g, key))
    case Put(_, _, _, _, _) => DoPut(g, req)
    case Freeze(s, num) => DoFreeze(g, s, num)
    case Install(s, state, num) => DoInstall(g, s, state, num)
    case Delete(s, num) => DoDelete(g, s, num)
  }

  // ----- what every request keeps -----

  /** A shard that is served or frozen has its maps, one that is absent has nothing in them, and
      every client of a shard has a record. */
  ghost predicate Sound(g: Group) {
    && g.Valid()
    && forall s: Shard :: SoundSlot(g.slots[s], g.lastPut.Keys)
  }

  ghost predicate SoundSlot(slot: Slot, recorded: set<Client>) {
    && Members(slot.clients) <= recorded
    && (if slot.status == Absent then Entries(slot.kv) == map[] && Members(slot.clients) == {}
        else slot.kv.Some? && slot.clients.Some?)
  }

  /** The order in which a slot moves: a larger number, or Frozen to Absent under the same one. */
  ghost predicate SlotLe(a: Slot, b: Slot) {
    || a.num < b.num
    || (a.num == b.num && (a.status == b.status || (a.status == Frozen && b.status == Absent)))
  }

  /** Only a served shard's data changes without its number or status changing. */
  ghost predicate SameData(a: Slot, b: Slot) {
    a.num == b.num && a.status == b.status != Serving ==> a.kv == b.kv && a.clients == b.clients
  }

  ghost predicate RecordsLe(a: map<Client, LastPut>, b: map<Client, LastPut>) {
    forall c :: c in a ==> c in b && a[c].id <= b[c].id
  }

  /** An Install whose number is new for an absent shard carries state. */
  ghost predicate Decodable(g: Group, req: Request)
    requires g.Valid()
  {
    req.Install? && req.num > g.slots[req.shard].num && g.slots[req.shard].status == Absent ==> req.state.Some?
  }

  /** A sound group can only die of an undecodable Install, and stays sound. */
  lemma DoOpSound(g: Group, req: Request)
    requires Sound(g)
    ensures DoOp(g, req).Done? <==> Decodable(g, req)
    ensures DoOp(g, req).Done? ==> Sound(DoOp(g, req).group)
  {
    if req.Put? {
      PutSound(g, req);
    } else if !req.Get? {
      assert SoundSlot(g.slots[req.shard], g.lastPut.Keys);
      forall s: Shard | DoOp(g, req).Done?
        ensures SoundSlot(DoOp(g, req).group.slots[s], DoOp(g, req).group.lastPut.Keys)
      {
        assert SoundSlot(g.slots[s], g.lastPut.Keys);
      }
    }
  }

  lemma PutSound(g: Group, put: Request)
    requires Sound(g) && put.Put?
    ensures DoPut(g, put).Done? && Sound(DoPut(g, put).group)
  {
    assert SoundSlot(g.slots[KeyShard(put.key)], g.lastPut.Keys);
    forall s: Shard
      ensures SoundSlot(DoPut(g, put).group.slots[s], DoPut(g, put).group.lastPut.Keys)
    {
      assert SoundSlot(g.slots[s], g.lastPut.Keys);
    }
  }

  lemma DoOpAdvances(g: Group, req: Request, s: Shard)
    requires g.Valid() && DoOp(g, req).Done?
    ensures var g' := DoOp(g, req).group;
      && g'.Valid()
      && SlotLe(g.slots[s], g'.slots[s])
      && SameData(g.slots[s], g'.slots[s])
      && RecordsLe(g.lastPut, g'.lastPut)
  {
  }
}
