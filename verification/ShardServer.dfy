/** The shard group server as the program has it: arrays and maps updated in place. */
module ShardServer {
  import opened ShardGroup

  /** What Snapshot encodes: copies, in which no map is nil. */
  datatype SnapshotData = SnapshotData(
    kvm: seq<Table>,
    lastPut: map<Client, LastPut>,
    nums: map<Shard, nat>,
    statuses: seq<Status>,
    clients: seq<set<Client>>
  )

  /** The group that the snapshot describes. */
  function Described(data: SnapshotData): Group
    requires |data.kvm| == |data.statuses| == |data.clients| == NSHARDS
  {
    Group(seq(NSHARDS, s requires 0 <= s < NSHARDS =>
            Slot(data.statuses[s], NumIn(data.nums, s), Some(data.kvm[s]), Some(data.clients[s]))),
          data.lastPut)
  }

  /** A missing number reads as zero. */
  function NumIn(nums: map<Shard, nat>, s: Shard): nat {
    if s in nums then nums[s] else 0
  }

  /** The group with its nil maps made empty. */
  function Image(g: Group): (r: Group)
    requires g.Valid()
    ensures r.Valid()
  {
    g.(slots := seq(NSHARDS, s requires 0 <= s < NSHARDS =>
         g.slots[s].(kv := Some(Entries(g.slots[s].kv)), clients := Some(Members(g.slots[s].clients)))))
  }

  class KVServer {
    const kvm: array<Option<Table>>
    const shardStatuses: array<Status>
    const shardClients: array<Option<set<Client>>>
    var lastPutByClientId: map<Client, LastPut>
    var cfgNumByShid: map<Shard, nat>

    ghost predicate Valid() {
      kvm.Length == shardStatuses.Length == shardClients.Length == NSHARDS
    }

    ghost function SlotOf(s: Shard): Slot
      requires Valid()
      reads this, kvm, shardStatuses, shardClients
    {
      Slot(shardStatuses[s], NumIn(cfgNumByShid, s), kvm[s], shardClients[s])
    }

    ghost function State(): (g: Group)
      requires Valid()
      reads this, kvm, shardStatuses, shardClients
      ensures g.Valid() && forall s: Shard :: g.slots[s] == SlotOf(s)
    {
      Group(seq(NSHARDS, s requires 0 <= s < NSHARDS reads this, kvm, shardStatuses, shardClients => SlotOf(s)),
            lastPutByClientId)
    }

    constructor (gid: Gid)
      ensures Valid() && fresh(kvm) && fresh(shardStatuses) && fresh(shardClients)
      ensures State() == Boot(gid)
    {
      kvm := new Option<Table>[NSHARDS](_ => Some(map[]));
      shardStatuses := new Status[NSHARDS](_ => Absent);
      shardClients := new Option<set<Client>>[NSHARDS](_ => Some({}));
      lastPutByClientId := map[];
      cfgNumByShid := map[];
      new;
      for i := 0 to NSHARDS
        invariant forall s: Shard :: kvm[s] == Some(map[]) && shardClients[s] == Some({})
        invariant forall s: Shard :: s < i ==> SlotOf(s) == Boot(gid).slots[s]
        invariant lastPutByClientId == map[]
      {
        if gid == GID1 {
          cfgNumByShid := cfgNumByShid[i := 1];
          shardStatuses[i] := Serving;
        } else {
          cfgNumByShid := cfgNumByShid[i := 0];
          shardStatuses[i] := Absent;
        }
      }
    }

    /** False: the process has ended, in a panic or log.Fatal. */
    method DoOp(req: Request) returns (alive: bool, reply: Reply)
      requires Valid()
      modifies this, kvm, shardStatuses, shardClients
      ensures alive ==> ShardGroup.DoOp(old(State()), req) == Done(State(), reply)
      ensures !alive ==> ShardGroup.DoOp(old(State()), req) == Fatal
    {
      match req
      case Get(key) => alive, reply := true, DoGet(key);
      case Put(client, id, key, value, version) => alive, reply := DoPut(client, id, key, value, version);
      case Freeze(s, num) => alive, reply := DoFreeze(s, num);
      case Install(s, state, num) => alive, reply := DoInstall(s, state, num);
      case Delete(s, num) =>
        reply := DoDelete(s, num);
        alive := true;
    }

    function DoGet(key: Key): (reply: Reply)
      requires Valid()
      reads this, kvm, shardStatuses, shardClients
      ensures reply == ShardGroup.DoGet(State(), key)
    {
      var s := KeyShard(key);
      if shardStatuses[s] != Serving then GetReply("", 0, ErrWrongGroup)
      else if kvm[s].Some? && key in kvm[s].value then
        GetReply(kvm[s].value[key].value, kvm[s].value[key].version, OK)
      else GetReply("", 0, ErrNoKey)
    }

    method DoPut(client: Client, id: nat, key: Key, value: string, version: nat) returns (alive: bool, reply: Reply)
      requires Valid()
      modifies this, kvm, shardStatuses, shardClients
      ensures alive ==> ShardGroup.DoPut(old(State()), Put(client, id, key, value, version)) == Done(State(), reply)
      ensures !alive ==> ShardGroup.DoPut(old(State()), Put(client, id, key, value, version)) == Fatal
    {
      var s := KeyShard(key);
      if shardStatuses[s] != Serving {
        return true, Plain(ErrWrongGroup);
      }
      if client in lastPutByClientId && id <= lastPutByClientId[client].id {
        return true, Plain(lastPutByClientId[client].err);
      }
      var err := OK;
      if kvm[s].Some? && key in kvm[s].value {
        if kvm[s].value[key].version == version {
          kvm[s] := Some(kvm[s].value[key := VersionedValue(value, version + 1)]);
        } else {
          err := ErrVersion;
        }
      } else if version == 0 {
        if kvm[s].None? {
          return false, Plain(OK);
        }
        kvm[s] := Some(kvm[s].value[key := VersionedValue(value, 1)]);
      } else {
        err := ErrNoKey;
      }
      lastPutByClientId := lastPutByClientId[client := LastPut(id, err)];
      if shardClients[s].None? {
        return false, Plain(err);
      }
      shardClients[s] := Some(shardClients[s].value + {client});
      alive, reply := true, Plain(err);
      assert State().slots == old(State()).slots[s := SlotOf(s)];
    }

    /** marshallShardState: None if a client of the shard has no record, which cannot be encoded. */
    method MarshallShardState(s: Shard) returns (state: Option<ShardState>)
      requires Valid()
      ensures state == Marshal(State(), s)
    {
      assert State().slots[s] == SlotOf(s);
      ghost var clients := Members(shardClients[s]);
      var left := if shardClients[s].Some? then shardClients[s].value else {};
      var last: map<Client, LastPut> := map[];
      while left != {}
        invariant left <= clients && last.Keys == clients - left
        invariant last.Keys <= lastPutByClientId.Keys
        invariant forall c :: c in last ==> last[c] == lastPutByClientId[c]
      {
        var c :| c in left;
        if c !in lastPutByClientId {
          return None;
        }
        last := last[c := lastPutByClientId[c]];
        left := left - {c};
      }
      assert last.Keys == clients;
      assert last == Marshal(State(), s).value.lastPut;
      state := Some(ShardState(if kvm[s].Some? then kvm[s].value else map[], last));
    }

    method DoFreeze(s: Shard, num: nat) returns (alive: bool, reply: Reply)
      requires Valid()
      modifies this, shardStatuses
      ensures alive ==> ShardGroup.DoFreeze(old(State()), s, num) == Done(State(), reply)
      ensures !alive ==> ShardGroup.DoFreeze(old(State()), s, num) == Fatal
    {
      var local := NumIn(cfgNumByShid, s);
      if num > local {
        if shardStatuses[s] != Serving {
          return true, FreezeReply(None, local, ErrIllegalOperation);
        }
        shardStatuses[s] := Frozen;
        cfgNumByShid := cfgNumByShid[s := num];
        assert State().slots == old(State()).slots[s := SlotOf(s)];
      } else if num == local {
        if shardStatuses[s] == Serving {
          return true, FreezeReply(None, num, ErrIllegalOperation);
        }
      } else {
        return true, FreezeReply(None, local, OK);
      }
      var state := MarshallShardState(s);
      alive, reply := state.Some?, FreezeReply(state, num, OK);
    }

    /** installShardState: the records with the larger request id win. */
    method InstallShardState(s: Shard, state: ShardState)
      requires Valid()
      modifies this`lastPutByClientId, kvm, shardClients
      ensures kvm[s] == Some(state.kv) && shardClients[s] == Some(state.lastPut.Keys)
      ensures lastPutByClientId == Newer(old(lastPutByClientId), state.lastPut)
      ensures forall t: Shard :: t != s ==> kvm[t] == old(kvm[t]) && shardClients[t] == old(shardClients[t])
    {
      kvm[s] := Some(state.kv);
      var left := state.lastPut.Keys;
      var clients: set<Client> := {};
      while left != {}
        modifies this`lastPutByClientId
        invariant left <= state.lastPut.Keys && clients == state.lastPut.Keys - left
        invariant lastPutByClientId.Keys == old(lastPutByClientId).Keys + clients
        invariant forall c :: c in lastPutByClientId ==>
          lastPutByClientId[c] ==
            if c in clients then Newer(old(lastPutByClientId), state.lastPut)[c] else old(lastPutByClientId)[c]
      {
        var c :| c in left;
        clients := clients + {c};
        if c !in lastPutByClientId || state.lastPut[c].id > lastPutByClientId[c].id {
          lastPutByClientId := lastPutByClientId[c := state.lastPut[c]];
        }
        left := left - {c};
      }
      assert clients == state.lastPut.Keys;
      shardClients[s] := Some(clients);
    }

    method DoInstall(s: Shard, state: Option<ShardState>, num: nat) returns (alive: bool, reply: Reply)
      requires Valid()
      modifies this, kvm, shardStatuses, shardClients
      ensures alive ==> ShardGroup.DoInstall(old(State()), s, state, num) == Done(State(), reply)
      ensures !alive ==> ShardGroup.DoInstall(old(State()), s, state, num) == Fatal
    {
      var local := NumIn(cfgNumByShid, s);
      if num > local {
        if shardStatuses[s] != Absent {
          return true, Plain(ErrIllegalOperation);
        }
        if state.None? {
          return false, Plain(OK);
        }
        InstallShardState(s, state.value);
        shardStatuses[s] := Serving;
        cfgNumByShid := cfgNumByShid[s := num];
        assert State().slots == old(State()).slots[s := SlotOf(s)];
        return true, Plain(OK);
      } else if num == local {
        return true, Plain(if shardStatuses[s] == Serving then OK else ErrIllegalOperation);
      }
      alive, reply := true, Plain(OK);
    }

    method DoDelete(s: Shard, num: nat) returns (reply: Reply)
      requires Valid()
      modifies this, kvm, shardStatuses, shardClients
      ensures ShardGroup.DoDelete(old(State()), s, num) == Done(State(), reply)
    {
      var local := NumIn(cfgNumByShid, s);
      if num == local {
        match shardStatuses[s]
        case Frozen =>
          kvm[s] := None;
          shardClients[s] := None;
          shardStatuses[s] := Absent;
          cfgNumByShid := cfgNumByShid[s := num];
          assert State().slots == old(State()).slots[s := SlotOf(s)];
          return Plain(OK);
        case Absent => return Plain(OK);
        case Serving => return Plain(ErrIllegalOperation);
      }
      reply := Plain(if num > local then ErrIllegalOperation else OK);
    }

    // ----- snapshots -----

    method Snapshot() returns (data: SnapshotData)
      requires Valid()
      ensures |data.kvm| == |data.statuses| == |data.clients| == NSHARDS
      ensures Described(data) == Image(State())
    {
      var kvms: seq<Table>, statuses: seq<Status>, clients: seq<set<Client>> := [], [], [];
      for i := 0 to NSHARDS
        invariant |kvms| == |statuses| == |clients| == i
        invariant forall s: Shard :: s < i ==>
          kvms[s] == Entries(kvm[s]) && statuses[s] == shardStatuses[s] && clients[s] == Members(shardClients[s])
      {
        kvms := kvms + [if kvm[i].Some? then kvm[i].value else map[]];
        statuses := statuses + [shardStatuses[i]];
        clients := clients + [if shardClients[i].Some? then shardClients[i].value else {}];
      }
      data := SnapshotData(kvms, lastPutByClientId, cfgNumByShid, statuses, clients);
    }

    method Restore(data: SnapshotData)
      requires Valid() && |data.kvm| == |data.statuses| == |data.clients| == NSHARDS
      modifies this, kvm, shardStatuses, shardClients
      ensures State() == Described(data)
    {
      for i := 0 to NSHARDS
        invariant forall s: Shard :: s < i ==>
          kvm[s] == Some(data.kvm[s]) && shardStatuses[s] == data.statuses[s] && shardClients[s] == Some(data.clients[s])
      {
        kvm[i] := Some(data.kvm[i]);
        shardStatuses[i] := data.statuses[i];
        shardClients[i] := Some(data.clients[i]);
      }
      lastPutByClientId := data.lastPut;
      cfgNumByShid := data.nums;
    }
  }
}
