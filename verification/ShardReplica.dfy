/**
 * The replicas of a shard group (src/kvraft/rsm/rsm.go): a Raft cluster together with the shard
 * servers it feeds. Where the cluster's snapshots stand for sequences of commands, the servers have
 * the data they took, stored, sent and restored.
 */
module ShardReplica {
  import opened RaftLog
  import R = RaftCluster
  import RaftClusterProof
  import RaftCommit
  import RaftNode
  import RaftRefinement
  import RaftSafety
  import opened ShardGroup
  import opened ShardServer

  type Decoder = Command -> Request

  // ----- the specification: the state is a fold of DoOp -----

  function Fold(gid: Gid, decode: Decoder, commands: seq<Command>): Option<Group>
    ensures var r := Fold(gid, decode, commands); r.Some? ==> r.value.Valid()
  {
    if commands == [] then Some(Boot(gid))
    else
      match Fold(gid, decode, commands[..|commands| - 1])
      case None => None
      case Some(g) =>
        match DoOp(g, decode(commands[|commands| - 1]))
        case Fatal => None
        case Done(g', _) =>
          DoOpAdvances(g, decode(commands[|commands| - 1]), 0);
          Some(g')
  }

  // ----- nil and empty maps cannot be told apart -----

  ghost predicate SameSlot(a: Slot, b: Slot) {
    a.status == b.status && a.num == b.num && Entries(a.kv) == Entries(b.kv) && Members(a.clients) == Members(b.clients)
  }

  ghost predicate Same(a: Group, b: Group) {
    && Sound(a) && Sound(b)
    && a.lastPut == b.lastPut
    && forall s: Shard :: SameSlot(a.slots[s], b.slots[s])
  }

  lemma ImageSame(g: Group)
    requires Sound(g)
    ensures Same(g, Image(g)) && Same(Image(g), g)
  {
    forall s: Shard ensures SoundSlot(Image(g).slots[s], g.lastPut.Keys) && SameSlot(g.slots[s], Image(g).slots[s]) {
      assert SoundSlot(g.slots[s], g.lastPut.Keys);
    }
  }

  lemma SameTransitive(a: Group, b: Group, c: Group)
    requires Same(a, b) && Same(b, c)
    ensures Same(a, c)
  {
    forall s: Shard ensures SameSlot(a.slots[s], c.slots[s]) {
      assert SameSlot(a.slots[s], b.slots[s]) && SameSlot(b.slots[s], c.slots[s]);
    }
  }

  /** Groups that differ only in nil for empty live or die together, answer alike and stay alike. */
  lemma SameStep(a: Group, b: Group, req: Request)
    requires Same(a, b)
    ensures DoOp(a, req).Done? <==> DoOp(b, req).Done?
    ensures DoOp(a, req).Done? ==>
              DoOp(a, req).reply == DoOp(b, req).reply && Same(DoOp(a, req).group, DoOp(b, req).group)
  {
    DoOpSound(a, req);
    DoOpSound(b, req);
    var s := if req.Get? || req.Put? then KeyShard(req.key) else req.shard;
    assert SameSlot(a.slots[s], b.slots[s]);
    assert SoundSlot(a.slots[s], a.lastPut.Keys) && SoundSlot(b.slots[s], b.lastPut.Keys);
    if DoOp(a, req).Done? {
      SameAfter(a, b, req, s);
    }
  }

  lemma SameAfter(a: Group, b: Group, req: Request, s: Shard)
    requires Same(a, b) && DoOp(a, req).Done? && DoOp(b, req).Done?
    requires Sound(DoOp(a, req).group) && Sound(DoOp(b, req).group)
    requires s == if req.Get? || req.Put? then KeyShard(req.key) else req.shard
    requires SameSlot(a.slots[s], b.slots[s])
    requires SoundSlot(a.slots[s], a.lastPut.Keys) && SoundSlot(b.slots[s], b.lastPut.Keys)
    ensures DoOp(a, req).reply == DoOp(b, req).reply && Same(DoOp(a, req).group, DoOp(b, req).group)
  {
    var a', b' := DoOp(a, req).group, DoOp(b, req).group;
    forall t: Shard ensures SameSlot(a'.slots[t], b'.slots[t]) {
      assert SameSlot(a.slots[t], b.slots[t]);
    }
  }

  /** The replies to a whole sequence of requests, up to where the process ends. */
  function Replies(g: Group, reqs: seq<Request>): seq<Reply>
    requires g.Valid()
    decreases |reqs|
  {
    if reqs == [] then []
    else match DoOp(g, reqs[0])
      case Fatal => []
      case Done(g', reply) =>
        DoOpAdvances(g, reqs[0], 0);
        [reply] + Replies(g', reqs[1..])
  }

  /** Restore after Snapshot cannot be told apart by any later operations. */
  lemma {:induction false} SameReplies(a: Group, b: Group, reqs: seq<Request>)
    requires Same(a, b)
    ensures Replies(a, reqs) == Replies(b, reqs)
    decreases |reqs|
  {
    if reqs != [] {
      SameStep(a, b, reqs[0]);
      if DoOp(a, reqs[0]).Done? {
        SameReplies(DoOp(a, reqs[0]).group, DoOp(b, reqs[0]).group, reqs[1..]);
      }
    }
  }

  lemma RestoreIsFaithful(g: Group, reqs: seq<Request>)
    requires Sound(g)
    ensures Replies(Image(g), reqs) == Replies(g, reqs)
  {
    ImageSame(g);
    SameReplies(Image(g), g, reqs);
  }

  ghost predicate Complete(data: SnapshotData) {
    |data.kvm| == |data.statuses| == |data.clients| == NSHARDS
  }

  ghost predicate IsSnapshotOf(data: SnapshotData, g: Group)
    requires g.Valid()
  {
    Complete(data) && Described(data) == Image(g)
  }

  // ----- readApply -----

  datatype ApplyMsg = CommandMsg(index: nat, command: Command) | SnapshotMsg(index: nat, data: SnapshotData)

  ghost predicate Readable(msgs: seq<ApplyMsg>) {
    forall m :: m in msgs && m.SnapshotMsg? ==> Complete(m.data)
  }

  /** The state after one message, or None if it ends the process. */
  ghost function Received(g: Group, decode: Decoder, msg: ApplyMsg): (r: Option<Group>)
    requires g.Valid() && (msg.SnapshotMsg? ==> Complete(msg.data))
    ensures r.Some? ==> r.value.Valid()
  {
    if msg.SnapshotMsg? then Some(Described(msg.data))
    else match DoOp(g, decode(msg.command))
      case Fatal => None
      case Done(g', _) =>
        DoOpAdvances(g, decode(msg.command), 0);
        Some(g')
  }

  /** The state after the messages, or None if one of them ends the process. */
  ghost function Delivered(g: Group, decode: Decoder, msgs: seq<ApplyMsg>): (r: Option<Group>)
    requires g.Valid() && Readable(msgs)
    ensures r.Some? ==> r.value.Valid()
  {
    if msgs == [] then Some(g)
    else match Delivered(g, decode, msgs[..|msgs| - 1])
      case None => None
      case Some(g') => Received(g', decode, msgs[|msgs| - 1])
  }

  lemma DeliveredNext(g: Group, decode: Decoder, msgs: seq<ApplyMsg>, msg: ApplyMsg)
    requires g.Valid() && Readable(msgs) && (msg.SnapshotMsg? ==> Complete(msg.data)) && Delivered(g, decode, msgs).Some?
    ensures Readable(msgs + [msg])
    ensures Delivered(g, decode, msgs + [msg]) == Received(Delivered(g, decode, msgs).value, decode, msg)
  {
    assert (msgs + [msg])[..|msgs|] == msgs;
  }

  /** Message n is a command after which the Raft state is found large. */
  ghost predicate Due(msgs: seq<ApplyMsg>, large: seq<bool>, n: nat)
    requires |large| == |msgs|
  {
    0 < n <= |msgs| && msgs[n - 1].CommandMsg? && large[n - 1]
  }

  /** The snapshot is of the state after the first n messages, with the index of the last of them. */
  ghost predicate TakenAt(g: Group, decode: Decoder, msgs: seq<ApplyMsg>, n: nat, t: (nat, SnapshotData))
    requires g.Valid() && Readable(msgs) && 0 < n <= |msgs| && msgs[n - 1].CommandMsg?
  {
    && msgs[n - 1].index == t.0
    && Delivered(g, decode, msgs[..n]).Some?
    && IsSnapshotOf(t.1, Delivered(g, decode, msgs[..n]).value)
  }

  ghost predicate FromDue(g: Group, decode: Decoder, msgs: seq<ApplyMsg>, large: seq<bool>, k: nat, t: (nat, SnapshotData))
    requires g.Valid() && Readable(msgs) && |large| == |msgs|
  {
    exists n: nat :: n <= k && Due(msgs, large, n) && TakenAt(g, decode, msgs, n, t)
  }

  ghost predicate WasTaken(g: Group, decode: Decoder, msgs: seq<ApplyMsg>, n: nat, taken: seq<(nat, SnapshotData)>)
    requires g.Valid() && Readable(msgs) && 0 < n <= |msgs| && msgs[n - 1].CommandMsg?
  {
    exists t :: t in taken && TakenAt(g, decode, msgs, n, t)
  }

  /** Among the first k messages, a snapshot was taken where one was due, unless the process ended before. */
  ghost predicate TakenWhenDue(g: Group, decode: Decoder, msgs: seq<ApplyMsg>, large: seq<bool>, k: nat,
                               taken: seq<(nat, SnapshotData)>)
    requires g.Valid() && Readable(msgs) && |large| == |msgs|
  {
    && (forall t :: t in taken ==> FromDue(g, decode, msgs, large, k, t))
    && (forall n: nat {:trigger Due(msgs, large, n)} ::
          n <= k && Due(msgs, large, n) && Delivered(g, decode, msgs[..n]).Some? ==> WasTaken(g, decode, msgs, n, taken))
  }

  lemma FromDueStays(g: Group, decode: Decoder, msgs: seq<ApplyMsg>, large: seq<bool>, k: nat, t: (nat, SnapshotData))
    requires g.Valid() && Readable(msgs) && |large| == |msgs| && FromDue(g, decode, msgs, large, k, t)
    ensures FromDue(g, decode, msgs, large, k + 1, t)
  {
    var n: nat :| n <= k && Due(msgs, large, n) && TakenAt(g, decode, msgs, n, t);
    assert n <= k + 1 && Due(msgs, large, n);
  }

  lemma WasTakenStays(g: Group, decode: Decoder, msgs: seq<ApplyMsg>, n: nat, taken: seq<(nat, SnapshotData)>,
                      more: seq<(nat, SnapshotData)>)
    requires g.Valid() && Readable(msgs) && 0 < n <= |msgs| && msgs[n - 1].CommandMsg? && WasTaken(g, decode, msgs, n, taken)
    ensures WasTaken(g, decode, msgs, n, taken + more)
  {
    var t :| t in taken && TakenAt(g, decode, msgs, n, t);
    assert t in taken + more;
  }

  /** What the k-th message adds: the snapshot that was due after it, if one was. */
  ghost predicate Adds(g: Group, decode: Decoder, msgs: seq<ApplyMsg>, large: seq<bool>, k: nat, more: seq<(nat, SnapshotData)>)
    requires g.Valid() && Readable(msgs) && |large| == |msgs| && 0 < k <= |msgs|
  {
    if more == [] then !Due(msgs, large, k) || Delivered(g, decode, msgs[..k]).None?
    else |more| == 1 && Due(msgs, large, k) && TakenAt(g, decode, msgs, k, more[0])
  }

  lemma AddedFromDue(g: Group, decode: Decoder, msgs: seq<ApplyMsg>, large: seq<bool>, k: nat,
                     more: seq<(nat, SnapshotData)>, t: (nat, SnapshotData))
    requires g.Valid() && Readable(msgs) && |large| == |msgs| && 0 < k <= |msgs|
    requires Adds(g, decode, msgs, large, k, more) && t in more
    ensures FromDue(g, decode, msgs, large, k, t)
  {
    assert t == more[0] && k <= k && Due(msgs, large, k);
  }

  lemma AddedTaken(g: Group, decode: Decoder, msgs: seq<ApplyMsg>, large: seq<bool>, k: nat,
                   taken: seq<(nat, SnapshotData)>, more: seq<(nat, SnapshotData)>)
    requires g.Valid() && Readable(msgs) && |large| == |msgs| && Due(msgs, large, k)
    requires Adds(g, decode, msgs, large, k, more) && Delivered(g, decode, msgs[..k]).Some?
    ensures WasTaken(g, decode, msgs, k, taken + more)
  {
    assert more[0] in taken + more;
  }

  lemma NextTaken(g: Group, decode: Decoder, msgs: seq<ApplyMsg>, large: seq<bool>, k: nat, taken: seq<(nat, SnapshotData)>,
                  more: seq<(nat, SnapshotData)>)
    requires g.Valid() && Readable(msgs) && |large| == |msgs| && k < |msgs| && TakenWhenDue(g, decode, msgs, large, k, taken)
    requires Adds(g, decode, msgs, large, k + 1, more)
    ensures TakenWhenDue(g, decode, msgs, large, k + 1, taken + more)
  {
    forall t | t in taken + more ensures FromDue(g, decode, msgs, large, k + 1, t) {
      if t in taken { FromDueStays(g, decode, msgs, large, k, t); } else { AddedFromDue(g, decode, msgs, large, k + 1, more, t); }
    }
    forall n: nat | n <= k + 1 && Due(msgs, large, n) && Delivered(g, decode, msgs[..n]).Some?
      ensures WasTaken(g, decode, msgs, n, taken + more)
    {
      if n <= k {
        WasTakenStays(g, decode, msgs, n, taken, more);
      } else {
        AddedTaken(g, decode, msgs, large, n, taken, more);
      }
    }
  }

  /** After the process has ended nothing is due. */
  lemma EndedWhenDue(g: Group, decode: Decoder, msgs: seq<ApplyMsg>, large: seq<bool>, k: nat, taken: seq<(nat, SnapshotData)>)
    requires g.Valid() && Readable(msgs) && |large| == |msgs| && k < |msgs|
    requires TakenWhenDue(g, decode, msgs, large, k, taken) && Delivered(g, decode, msgs[..k + 1]).None?
    ensures Delivered(g, decode, msgs).None? && TakenWhenDue(g, decode, msgs, large, |msgs|, taken)
    decreases |msgs| - k
  {
    DeadStaysDead(g, decode, msgs, k + 1);
    NextTaken(g, decode, msgs, large, k, taken, []);
    assert taken + [] == taken;
    if k + 1 < |msgs| {
      assert msgs[..k + 2][..k + 1] == msgs[..k + 1];
      DeadStaysDead(g, decode, msgs[..k + 2], k + 1);
      EndedWhenDue(g, decode, msgs, large, k + 1, taken);
    }
  }

  /** One message: a snapshot is taken after a command if the Raft state is found large. */
  method ReadOne(sm: KVServer, decode: Decoder, msg: ApplyMsg, large: bool)
      returns (alive: bool, taken: seq<(nat, SnapshotData)>)
    requires sm.Valid() && (msg.SnapshotMsg? ==> Complete(msg.data))
    modifies sm, sm.kvm, sm.shardStatuses, sm.shardClients
    ensures Received(old(sm.State()), decode, msg) == if alive then Some(sm.State()) else None
    ensures taken != [] <==> alive && msg.CommandMsg? && large
    ensures taken != [] ==> |taken| == 1 && taken[0].0 == msg.index && IsSnapshotOf(taken[0].1, sm.State())
  {
    alive, taken := true, [];
    match msg {
      case CommandMsg(index, command) =>
        var reply;
        alive, reply := sm.DoOp(decode(command));
        if alive && large {
          var data := sm.Snapshot();
          taken := [(index, data)];
        }
      case SnapshotMsg(_, data) =>
        sm.Restore(data);
    }
  }

  /** The loop over the apply channel. */
  method ReadApply(sm: KVServer, decode: Decoder, msgs: seq<ApplyMsg>, large: seq<bool>)
      returns (alive: bool, taken: seq<(nat, SnapshotData)>)
    requires sm.Valid() && Readable(msgs) && |large| == |msgs|
    modifies sm, sm.kvm, sm.shardStatuses, sm.shardClients
    ensures alive ==> Delivered(old(sm.State()), decode, msgs) == Some(sm.State())
    ensures !alive ==> Delivered(old(sm.State()), decode, msgs) == None
    ensures TakenWhenDue(old(sm.State()), decode, msgs, large, |msgs|, taken)
  {
    alive, taken := true, [];
    ghost var start := sm.State();
    for k := 0 to |msgs|
      invariant alive
      invariant Delivered(start, decode, msgs[..k]) == Some(sm.State())
      invariant TakenWhenDue(start, decode, msgs, large, k, taken)
    {
      assert msgs[..k] + [msgs[k]] == msgs[..k + 1] && msgs[k] in msgs;
      DeliveredNext(start, decode, msgs[..k], msgs[k]);
      var more;
      alive, more := ReadOne(sm, decode, msgs[k], large[k]);
      if !alive {
        EndedWhenDue(start, decode, msgs, large, k, taken);
        return;
      }
      NextTaken(start, decode, msgs, large, k, taken, more);
      taken := taken + more;
    }
    assert msgs[..|msgs|] == msgs;
  }

  lemma {:induction false} DeadStaysDead(g: Group, decode: Decoder, msgs: seq<ApplyMsg>, n: nat)
    requires g.Valid() && Readable(msgs) && n <= |msgs| && Delivered(g, decode, msgs[..n]) == None
    ensures Delivered(g, decode, msgs) == None
  {
    if n == |msgs| {
      assert msgs[..n] == msgs;
    } else {
      assert msgs[..|msgs| - 1][..n] == msgs[..n];
      DeadStaysDead(g, decode, msgs[..|msgs| - 1], n);
    }
  }

  // ----- the commands behind a state -----

  /** The group is the fold of DoOp over the commands, up to nil and empty maps. */
  ghost predicate Represents(gid: Gid, decode: Decoder, g: Group, commands: seq<Command>) {
    Fold(gid, decode, commands).Some? && Same(g, Fold(gid, decode, commands).value)
  }

  lemma BootRepresents(gid: Gid, decode: Decoder)
    ensures Represents(gid, decode, Boot(gid), [])
  {
    forall s: Shard ensures SoundSlot(Boot(gid).slots[s], Boot(gid).lastPut.Keys) {}
  }

  lemma ApplyRepresents(gid: Gid, decode: Decoder, g: Group, commands: seq<Command>, command: Command)
    requires Represents(gid, decode, g, commands)
    ensures DoOp(g, decode(command)).Done? <==> Fold(gid, decode, commands + [command]).Some?
    ensures DoOp(g, decode(command)).Done? ==> Represents(gid, decode, DoOp(g, decode(command)).group, commands + [command])
  {
    assert (commands + [command])[..|commands|] == commands;
    SameStep(g, Fold(gid, decode, commands).value, decode(command));
  }

  lemma SnapshotRepresents(gid: Gid, decode: Decoder, g: Group, commands: seq<Command>, data: SnapshotData)
    requires Represents(gid, decode, g, commands) && IsSnapshotOf(data, g)
    ensures Represents(gid, decode, Described(data), commands)
  {
    ImageSame(g);
    SameTransitive(Image(g), g, Fold(gid, decode, commands).value);
  }

  // ----- servers on top of a cluster -----

  /**
   * A shard server: its state, the data of the snapshot its peer holds (in memory and on disk) and
   * of the one its applier is about to hand over, and since it last started, the state it started
   * from and the messages it was given.
   */
  datatype Service = Service(
    group: Group,
    stored: Option<SnapshotData>,
    holding: Option<SnapshotData>,
    start: Group,
    inbox: seq<ApplyMsg>
  )

  /** A cluster with its servers, and the data that InstallSnapshot requests carry. */
  datatype System = System(cluster: R.Cluster, services: seq<Service>, carried: set<(R.Message, Option<SnapshotData>)>)

  ghost predicate Init(w: System, gid: Gid) {
    && R.Init(w.cluster) && w.carried == {}
    && w.services == seq(|w.cluster.peers|, _ => Service(Boot(gid), None, None, Boot(gid), []))
  }

  /** MakeRSM: a stored snapshot is restored, otherwise the server is as booted. */
  ghost function Rebooted(v: Service, gid: Gid): Service {
    var g := if v.stored.Some? && Complete(v.stored.value) then Described(v.stored.value) else Boot(gid);
    Service(g, v.stored, None, g, [])
  }

  ghost function Given(v: Service, decode: Decoder, msg: RaftNode.ApplyMsg): Service {
    match msg
    case CommandMsg(i, command) =>
      if v.group.Valid() && DoOp(v.group, decode(command)).Done? then
        v.(group := DoOp(v.group, decode(command)).group, inbox := v.inbox + [CommandMsg(i, command)])
      else v
    case SnapshotMsg(i, _, _) =>
      // empty data is ignored
      if v.holding.Some? && Complete(v.holding.value) then
        v.(group := Described(v.holding.value), inbox := v.inbox + [SnapshotMsg(i, v.holding.value)])
      else v
  }

  /** What a step makes of its server; `data` is what an InstallSnapshot carries or the server saves. */
  ghost function Served(v: Service, p: R.Peer, peers: nat, gid: Gid, decode: Decoder, step: R.Step,
                        data: Option<SnapshotData>): Service
    requires RaftRefinement.CanAct(p, peers, step)
  {
    match RaftRefinement.Acts(p, peers, step)
    case Died => Rebooted(v, gid)
    case Lives((p', _)) =>
      match step
      case HandleInstall(_, _) => if p'.node.lastIncluded != p.node.lastIncluded then v.(stored := data) else v
      case ServiceSnapshot(_) => if p'.node.lastIncluded != p.node.lastIncluded then v.(stored := data) else v
      case Take(_) => if p.node.snapshotPending then v.(holding := v.stored) else v
      case Deliver(_) => Given(v, decode, p.applier.msg)
      case _ => v
  }

  ghost predicate Possible(w: System, decode: Decoder, step: R.Step, data: Option<SnapshotData>) {
    && R.Possible(w.cluster, step) && step.server < |w.services|
    && var p, v := w.cluster.peers[step.server], w.services[step.server];
       && (step.HandleInstall? ==> (step.msg, data) in w.carried)
       && (step.ServiceSnapshot? ==> v.group.Valid() && data.Some? && IsSnapshotOf(data.value, v.group))
       // a command that ends the process is a crash
       && (step.Deliver? && p.applier.msg.CommandMsg? ==>
             v.group.Valid() && DoOp(v.group, decode(p.applier.msg.command)).Done?)
  }

  /** The requests a step sends carry the data its server has stored. */
  ghost function Sending(v: Service, p: R.Peer, peers: nat, step: R.Step): set<(R.Message, Option<SnapshotData>)>
    requires RaftRefinement.CanAct(p, peers, step)
  {
    match RaftRefinement.Acts(p, peers, step)
    case Died => {}
    case Lives((_, sent)) => set m | m in sent && m.InstallRequest? :: (m, v.stored)
  }

  ghost predicate Happens(w: System, gid: Gid, decode: Decoder, step: R.Step, data: Option<SnapshotData>, w': System) {
    && Possible(w, decode, step, data)
    && var k, s := w.cluster, step.server;
       && RaftRefinement.CanAct(k.peers[s], |k.peers|, step)
       && w'.cluster == R.Next(k, step)
       && w'.services == w.services[s := Served(w.services[s], k.peers[s], |k.peers|, gid, decode, step, data)]
       && w'.carried == w.carried + Sending(w.services[s], k.peers[s], |k.peers|, step)
  }

  ghost predicate SystemRun(run: seq<System>, steps: seq<R.Step>, gid: Gid, decode: Decoder) {
    && |run| == |steps| + 1 && Init(run[0], gid)
    && forall i: nat {:trigger Next(run, steps, gid, decode, i)} :: i < |steps| ==> Next(run, steps, gid, decode, i)
  }

  ghost predicate Next(run: seq<System>, steps: seq<R.Step>, gid: Gid, decode: Decoder, i: nat)
    requires |run| == |steps| + 1 && i < |steps|
  {
    Advances(run[i], gid, decode, steps[i], run[i + 1])
  }

  ghost predicate Advances(w: System, gid: Gid, decode: Decoder, step: R.Step, w': System) {
    exists data :: Happens(w, gid, decode, step, data, w')
  }

  ghost function Clusters(run: seq<System>): seq<R.Cluster> {
    seq(|run|, i requires 0 <= i < |run| => run[i].cluster)
  }

  /** The cluster under the servers runs as it would alone. */
  lemma ClusterRuns(run: seq<System>, steps: seq<R.Step>, gid: Gid, decode: Decoder)
    requires SystemRun(run, steps, gid, decode)
    ensures R.Run(Clusters(run), steps)
  {
    var states := Clusters(run);
    forall i: nat | i < |steps| ensures R.Follows(states, steps, i) {
      assert Next(run, steps, gid, decode, i);
    }
  }

  // ----- every server is what its journal makes it -----

  ghost predicate DataFor(gid: Gid, decode: Decoder, data: Option<SnapshotData>, commands: seq<Command>) {
    if data.Some? then Complete(data.value) && Represents(gid, decode, Described(data.value), commands) else commands == []
  }

  /** State, stored data and data under way stand for the commands the peer says they do. */
  ghost predicate Faithful(gid: Gid, decode: Decoder, v: Service, p: R.Peer) {
    && Represents(gid, decode, v.group, p.journal)
    && DataFor(gid, decode, v.stored, p.node.snapshot)
    && (p.node.lastIncluded > 0 || p.node.snapshotPending ==> v.stored.Some?)
    && (p.applier.Holding? && p.applier.msg.SnapshotMsg? ==>
          v.holding.Some? && DataFor(gid, decode, v.holding, p.applier.msg.data))
  }

  ghost predicate CarriedOk(gid: Gid, decode: Decoder, m: R.Message, data: Option<SnapshotData>) {
    m.InstallRequest? && DataFor(gid, decode, data, m.install.data) && (m.install.lastIncluded > 0 ==> data.Some?)
  }

  /** What the messages since the start make of the state it started from. */
  ghost predicate Followed(decode: Decoder, v: Service) {
    v.start.Valid() && Readable(v.inbox) && Delivered(v.start, decode, v.inbox) == Some(v.group)
  }

  lemma RebootFaithful(gid: Gid, decode: Decoder, v: Service, p: R.Peer, peers: nat)
    requires Faithful(gid, decode, v, p) && RaftClusterProof.Current(p.node)
    ensures Faithful(gid, decode, Rebooted(v, gid), R.Reborn(p, peers)) && Followed(decode, Rebooted(v, gid))
  {
    BootRepresents(gid, decode);
    assert Delivered(Rebooted(v, gid).start, decode, []) == Some(Rebooted(v, gid).group);
  }

  /** What a server does not notice. */
  predicate Unnoticed(p: R.Peer, p': R.Peer) {
    && p'.node.snapshot == p.node.snapshot && p'.node.lastIncluded == p.node.lastIncluded
    && p'.node.snapshotPending == p.node.snapshotPending && p'.journal == p.journal
    && (p'.applier == p.applier || p'.applier.Idle?)
  }

  lemma OthersUnnoticed(p: R.Peer, peers: nat, step: R.Step)
    requires RaftRefinement.CanAct(p, peers, step)
    requires !step.HandleInstall? && !step.ServiceSnapshot? && !step.Take? && !step.Deliver?
    requires !step.HandleAppend? && !step.HandleAppendAnswer? && !step.HandleInstallAnswer?
    ensures var o := RaftRefinement.Acts(p, peers, step); o.Lives? ==> Unnoticed(p, o.value.0)
  {
  }

  lemma RepliesUnnoticed(p: R.Peer, peers: nat, step: R.Step)
    requires RaftRefinement.CanAct(p, peers, step)
    requires step.HandleAppend? || step.HandleAppendAnswer? || step.HandleInstallAnswer?
    ensures var o := RaftRefinement.Acts(p, peers, step); o.Lives? ==> Unnoticed(p, o.value.0)
  {
    if step.HandleAppend? { RaftRefinement.AppendForApplier(p.node, step.msg.append); }
  }

  lemma InstallFaithful(gid: Gid, decode: Decoder, v: Service, p: R.Peer, a: RaftNode.SnapshotArgs, data: Option<SnapshotData>)
    requires |p.node.log| > 0 && Faithful(gid, decode, v, p)
    requires DataFor(gid, decode, data, a.data) && (a.lastIncluded > 0 ==> data.Some?)
    ensures var n' := RaftNode.OnInstallSnapshot(p.node, a).0;
      Faithful(gid, decode, if n'.lastIncluded != p.node.lastIncluded then v.(stored := data) else v, p.(node := n'))
  {
  }

  lemma GivenFollowed(decode: Decoder, v: Service, msg: RaftNode.ApplyMsg)
    requires Followed(decode, v)
    ensures Followed(decode, Given(v, decode, msg))
  {
    match msg
    case CommandMsg(i, command) => DeliveredNext(v.start, decode, v.inbox, CommandMsg(i, command));
    case SnapshotMsg(i, _, _) =>
      if v.holding.Some? && Complete(v.holding.value) {
        DeliveredNext(v.start, decode, v.inbox, SnapshotMsg(i, v.holding.value));
      }
  }

  lemma GivenFaithful(gid: Gid, decode: Decoder, v: Service, p: R.Peer)
    requires p.applier.Holding? && Faithful(gid, decode, v, p)
    requires p.applier.msg.CommandMsg? ==> v.group.Valid() && DoOp(v.group, decode(p.applier.msg.command)).Done?
    ensures Faithful(gid, decode, Given(v, decode, p.applier.msg), RaftRefinement.Delivery(p))
  {
    if p.applier.msg.CommandMsg? {
      ApplyRepresents(gid, decode, v.group, p.journal, p.applier.msg.command);
    }
  }

  lemma ServedFaithful(gid: Gid, decode: Decoder, v: Service, p: R.Peer, peers: nat, step: R.Step, data: Option<SnapshotData>)
    requires RaftRefinement.CanAct(p, peers, step) && RaftClusterProof.Current(p.node)
    requires Faithful(gid, decode, v, p) && Followed(decode, v)
    requires step.HandleInstall? ==> CarriedOk(gid, decode, step.msg, data)
    requires step.ServiceSnapshot? ==> data.Some? && v.group.Valid() && IsSnapshotOf(data.value, v.group)
    requires step.Deliver? && p.applier.msg.CommandMsg? ==> v.group.Valid() && DoOp(v.group, decode(p.applier.msg.command)).Done?
    ensures var v' := Served(v, p, peers, gid, decode, step, data);
      && Followed(decode, v')
      && match RaftRefinement.Acts(p, peers, step)
         case Died => Faithful(gid, decode, v', R.Reborn(p, peers))
         case Lives((p', _)) => Faithful(gid, decode, v', p')
  {
    if RaftRefinement.Acts(p, peers, step).Died? {
      RebootFaithful(gid, decode, v, p, peers);
    } else if step.HandleInstall? {
      InstallFaithful(gid, decode, v, p, step.msg.install, data);
    } else if step.ServiceSnapshot? {
      SnapshotRepresents(gid, decode, v.group, p.journal, data.value);
    } else if step.Deliver? {
      GivenFaithful(gid, decode, v, p);
      GivenFollowed(decode, v, p.applier.msg);
    } else if step.HandleAppend? || step.HandleAppendAnswer? || step.HandleInstallAnswer? {
      RepliesUnnoticed(p, peers, step);
    } else if !step.Take? {
      OthersUnnoticed(p, peers, step);
    }
  }

  ghost predicate ServerOk(gid: Gid, decode: Decoder, w: System, s: nat)
    requires s < |w.services| == |w.cluster.peers|
  {
    Faithful(gid, decode, w.services[s], w.cluster.peers[s]) && Followed(decode, w.services[s])
  }

  /** Every server is faithful, and every snapshot under way has its data. */
  ghost predicate Inv(gid: Gid, decode: Decoder, w: System) {
    && |w.services| == |w.cluster.peers|
    && (forall s: nat :: s < |w.services| ==> ServerOk(gid, decode, w, s))
    && (forall c :: c in w.carried ==> CarriedOk(gid, decode, c.0, c.1))
    && (forall m :: m in w.cluster.net && m.InstallRequest? ==> exists data :: (m, data) in w.carried)
  }

  lemma SendingOk(gid: Gid, decode: Decoder, v: Service, p: R.Peer, peers: nat, step: R.Step)
    requires RaftRefinement.CanAct(p, peers, step) && Faithful(gid, decode, v, p)
    ensures forall c :: c in Sending(v, p, peers, step) ==> CarriedOk(gid, decode, c.0, c.1)
    ensures RaftRefinement.Acts(p, peers, step).Lives? ==>
              forall m :: m in RaftRefinement.Acts(p, peers, step).value.1 && m.InstallRequest? ==>
                (m, v.stored) in Sending(v, p, peers, step)
  {
  }

  lemma HappensKeeps(gid: Gid, decode: Decoder, w: System, step: R.Step, data: Option<SnapshotData>, w': System)
    requires RaftClusterProof.Inv(w.cluster) && Inv(gid, decode, w) && Happens(w, gid, decode, step, data, w')
    ensures Inv(gid, decode, w')
  {
    var k, s := w.cluster, step.server;
    assert ServerOk(gid, decode, w, s);
    RaftRefinement.ActsIsNext(k, step);
    HappensToServer(gid, decode, w, step, data, w');
    SendingOk(gid, decode, w.services[s], k.peers[s], |k.peers|, step);
    Spread(gid, decode, w, s, w');
  }

  lemma HappensToServer(gid: Gid, decode: Decoder, w: System, step: R.Step, data: Option<SnapshotData>, w': System)
    requires RaftClusterProof.Inv(w.cluster) && Inv(gid, decode, w) && Happens(w, gid, decode, step, data, w')
    ensures step.server < |w'.services| == |w'.cluster.peers| && ServerOk(gid, decode, w', step.server)
  {
    var k, s := w.cluster, step.server;
    assert RaftClusterProof.PeerOk(k.core, s, k.peers[s]) && ServerOk(gid, decode, w, s);
    assert step.HandleInstall? ==> CarriedOk(gid, decode, (step.msg, data).0, (step.msg, data).1);
    RaftRefinement.ActsIsNext(k, step);
    ServedFaithful(gid, decode, w.services[s], k.peers[s], |k.peers|, step, data);
  }

  lemma Spread(gid: Gid, decode: Decoder, w: System, s: nat, w': System)
    requires Inv(gid, decode, w) && s < |w.services| == |w'.services| == |w'.cluster.peers| && ServerOk(gid, decode, w', s)
    requires forall j: nat :: j < |w.services| && j != s ==>
               w'.services[j] == w.services[j] && w'.cluster.peers[j] == w.cluster.peers[j]
    requires w.carried <= w'.carried && forall c :: c in w'.carried && c !in w.carried ==> CarriedOk(gid, decode, c.0, c.1)
    requires forall m :: m in w'.cluster.net && m !in w.cluster.net && m.InstallRequest? ==>
               exists data :: (m, data) in w'.carried
    ensures Inv(gid, decode, w')
  {
    forall j: nat | j < |w'.services| ensures ServerOk(gid, decode, w', j) {
      if j != s { assert ServerOk(gid, decode, w, j); }
    }
    forall m | m in w'.cluster.net && m.InstallRequest? ensures exists data :: (m, data) in w'.carried {
      if m in w.cluster.net {
        var data :| (m, data) in w.carried;
        assert (m, data) in w'.carried;
      }
    }
  }

  lemma {:induction false} SystemInv(run: seq<System>, steps: seq<R.Step>, gid: Gid, decode: Decoder, i: nat)
    requires SystemRun(run, steps, gid, decode) && i < |run|
    ensures Inv(gid, decode, run[i])
  {
    if i == 0 {
      BootRepresents(gid, decode);
      forall s: nat | s < |run[0].services| ensures ServerOk(gid, decode, run[0], s) {
        assert Delivered(Boot(gid), decode, []) == Some(Boot(gid));
      }
    } else {
      SystemInv(run, steps, gid, decode, i - 1);
      ClusterRuns(run, steps, gid, decode);
      RaftSafety.RunInv(Clusters(run), steps, i - 1);
      assert Next(run, steps, gid, decode, i - 1);
      var data :| Happens(run[i - 1], gid, decode, steps[i - 1], data, run[i]);
      HappensKeeps(gid, decode, run[i - 1], steps[i - 1], data, run[i]);
    }
  }

  /**
   * Replica state is a fold: in a run in which Raft counts no reply wrongly, a server that is at
   * index i of its log has the state of DoOp folded over the committed commands 1..i, whether it
   * came there by replay, by an installed snapshot or by a restart; and it is the state the apply
   * loop computes from the messages since the last start.
   */
  lemma StateIsFold(run: seq<System>, steps: seq<R.Step>, gid: Gid, decode: Decoder, i: nat, s: nat)
    requires SystemRun(run, steps, gid, decode) && RaftSafety.SoundRun(Clusters(run), steps)
    requires i < |run| && s < |run[i].cluster.peers|
    ensures var k := run[i].cluster; var p := k.peers[s];
      && s < |run[i].services| && s < |k.core.log|
      && p.journalIndex <= p.node.commitIndex < |k.core.log[s]|
      && Represents(gid, decode, run[i].services[s].group, RaftCommit.Commands(k.core.log[s], p.journalIndex))
      && Followed(decode, run[i].services[s])
  {
    SystemInv(run, steps, gid, decode, i);
    assert ServerOk(gid, decode, run[i], s);
    assert Clusters(run)[i] == run[i].cluster;
    RaftSafety.PeerAt(Clusters(run), steps, i, s);
  }

  /** Every snapshot in a node, on disk and in a message has data that stands for its commands. */
  lemma SnapshotsHaveData(run: seq<System>, steps: seq<R.Step>, gid: Gid, decode: Decoder, i: nat)
    requires SystemRun(run, steps, gid, decode) && i < |run|
    ensures |run[i].services| == |run[i].cluster.peers|
    ensures forall s: nat :: s < |run[i].services| ==>
              && DataFor(gid, decode, run[i].services[s].stored, run[i].cluster.peers[s].node.snapshot)
              && DataFor(gid, decode, run[i].services[s].stored, run[i].cluster.peers[s].node.disk.snapshot)
    ensures forall m :: m in run[i].cluster.net && m.InstallRequest? ==>
              exists data :: (m, data) in run[i].carried && DataFor(gid, decode, data, m.install.data)
  {
    SystemInv(run, steps, gid, decode, i);
    ClusterRuns(run, steps, gid, decode);
    RaftSafety.RunInv(Clusters(run), steps, i);
    var w := run[i];
    assert Clusters(run)[i] == w.cluster;
    forall s: nat | s < |w.services|
      ensures DataFor(gid, decode, w.services[s].stored, w.cluster.peers[s].node.snapshot)
      ensures DataFor(gid, decode, w.services[s].stored, w.cluster.peers[s].node.disk.snapshot)
    {
      assert ServerOk(gid, decode, w, s);
      assert RaftClusterProof.PeerOk(w.cluster.core, s, w.cluster.peers[s]);
    }
    forall m | m in w.cluster.net && m.InstallRequest?
      ensures exists data :: (m, data) in w.carried && DataFor(gid, decode, data, m.install.data)
    {
      var data :| (m, data) in w.carried;
      assert CarriedOk(gid, decode, (m, data).0, (m, data).1);
    }
  }

  /** Replicas at the same index of the log, at whatever times, answer every request alike. */
  lemma ReplicasAnswerAlike(run: seq<System>, steps: seq<R.Step>, gid: Gid, decode: Decoder, i: nat, j: nat, a: nat, b: nat,
                            reqs: seq<Request>)
    requires SystemRun(run, steps, gid, decode) && RaftSafety.SoundRun(Clusters(run), steps)
    requires i <= j < |run| && a < |run[i].cluster.peers| && b < |run[j].cluster.peers|
    requires run[i].cluster.peers[a].journalIndex == run[j].cluster.peers[b].journalIndex
    ensures a < |run[i].services| && b < |run[j].services|
    ensures run[i].services[a].group.Valid() && run[j].services[b].group.Valid()
    ensures Replies(run[i].services[a].group, reqs) == Replies(run[j].services[b].group, reqs)
  {
    SystemInv(run, steps, gid, decode, i);
    SystemInv(run, steps, gid, decode, j);
    assert ServerOk(gid, decode, run[i], a) && ServerOk(gid, decode, run[j], b);
    assert Clusters(run)[i] == run[i].cluster && Clusters(run)[j] == run[j].cluster;
    RaftSafety.ServicesAgree(Clusters(run), steps, i, j, a, b);
    var x, y := run[i].services[a].group, run[j].services[b].group;
    var journal := run[i].cluster.peers[a].journal;
    assert journal == run[j].cluster.peers[b].journal;
    SameReplies(x, Fold(gid, decode, journal).value, reqs);
    SameReplies(y, Fold(gid, decode, journal).value, reqs);
  }
}
