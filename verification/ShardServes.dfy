/** When a group serves a request: what it answers, and when a Put takes effect. */
module ShardServes {
  import opened ShardGroup
  import opened ShardWorld
  import opened ShardLayout
  import opened ShardLedger
  import opened ShardInvariant
  import opened ShardClients
  import opened ShardSafety

  ghost predicate TookEffect(log: seq<Event>, put: PutRequest) {
    exists i :: 0 <= i < |log| && log[i].PutDone? && log[i].put == put
  }

  lemma EffectStays(log: seq<Event>, log': seq<Event>, put: PutRequest)
    requires log <= log' && TookEffect(log, put)
    ensures TookEffect(log', put)
  {
    var i :| 0 <= i < |log| && log[i].PutDone? && log[i].put == put;
    assert log'[i] == log[i];
  }

  // ----- a client moves on only when its Put has taken effect -----

  ghost predicate MovedOn(w: World, p: (Client, nat)) {
    p.1 < ClientAt(w, p.0).counter || ClientAt(w, p.0).pending.None?
  }

  ghost predicate Done(w: World, p: (Client, nat))
    requires p in w.asked
  {
    MovedOn(w, p) ==> TookEffect(w.log, w.asked[p])
  }

  ghost predicate CallsDone(w: World) {
    forall p :: p in w.asked ==> Done(w, p)
  }

  /** Told what became of it, and not to try elsewhere, a client knows that its Put has taken effect. */
  lemma HeardTookEffect(w: World, cl: Client, to: Gid, reply: Reply)
    requires ClientInv(w) && CanCall(w, HearPut(cl, to, reply)) && reply.err != ErrWrongGroup && cl in w.clients
    ensures TookEffect(w.log, ClientAt(w, cl).pending.value)
  {
    var put := ClientAt(w, cl).pending.value;
    var p := (Envelope(to, put, 0), reply);
    assert p in w.replies && ClientReplyOk(w, p.0, p.1) && PendingOk(w, cl);
    var j :| 0 <= j < |w.log| && w.log[j].PutDone? && w.log[j].put.client == put.client &&
      LastPut(w.log[j].put.id, w.log[j].err) == LastPut(put.id, reply.err);
    assert IsAsked(w.asked, w.log[j].put);
  }

  lemma CallKeepsDone(w: World, act: ClientAct)
    requires ClientInv(w) && CallsDone(w) && CanCall(w, act)
    ensures CallsDone(AfterCall(w, act))
  {
    var w' := AfterCall(w, act);
    forall p | p in w'.asked ensures Done(w', p) {
      if p in w.asked {
        assert Done(w, p) && Numbered(w, p);
        if act.HearPut? && p.0 == act.cl && act.reply.err != ErrWrongGroup {
          HeardTookEffect(w, act.cl, act.to, act.reply);
          assert PendingOk(w, act.cl);
        }
      }
    }
  }

  lemma StepKeepsDone(w: World, step: Step)
    requires ClientInv(w) && CallsDone(w) && Possible(w, step)
    ensures CallsDone(After(w, step))
  {
    if step.Call? {
      CallKeepsDone(w, step.act);
    } else if step.Execute? {
      GrownKeepsDone(w, AfterExecute(w, step.env));
    } else {
      ControlChanges(w, step);
      GrownKeepsDone(w, After(w, step));
    }
  }

  lemma GrownKeepsDone(w: World, w': World)
    requires CallsDone(w) && w'.asked == w.asked && w'.clients == w.clients && w.log <= w'.log
    ensures CallsDone(w')
  {
    forall p | p in w'.asked ensures Done(w', p) {
      assert Done(w, p);
      if MovedOn(w, p) { EffectStays(w.log, w'.log, w.asked[p]); }
    }
  }

  lemma {:induction false} RunDone(run: seq<World>, i: nat)
    requires Run(run) && i < |run|
    ensures CallsDone(run[i])
  {
    if i > 0 {
      RunDone(run, i - 1);
      RunInv(run, i - 1);
      assert Next(run[i - 1], run[i]);
      var step :| Possible(run[i - 1], step) && run[i] == After(run[i - 1], step);
      StepKeepsDone(run[i - 1], step);
    }
  }

  // ----- what a group answers -----

  /** A Get is served if and only if the group serves the shard; otherwise the client is told to look elsewhere. */
  lemma GetsServedExactly(run: seq<World>, i: nat, env: Envelope)
    requires Run(run) && i < |run| && Possible(run[i], Execute(env)) && env.request.Get?
    ensures var w := run[i]; var w' := After(w, Execute(env));
      && w'.groups[env.to] == GroupAt(w.groups, env.to)
      && exists reply ::
           && w'.replies == w.replies + {(env, reply)}
           && (reply.err == ErrWrongGroup <==> !HasStatus(w, env.to, KeyShard(env.request.key), Serving))
           && w'.log == w.log + (if reply.err == ErrWrongGroup then [] else [GetDone(env.from, env.request.key, reply)])
  {
    var w := run[i];
    var reply := DoOp(GroupAt(w.groups, env.to), env.request).reply;
    assert After(w, Execute(env)).replies == w.replies + {(env, reply)};
  }

  /** A Put that finds a record as new as itself has taken effect. */
  lemma DuplicateTookEffect(w: World, to: Gid, put: PutRequest)
    requires Inv(w) && ClientInv(w) && CallsDone(w) && IsAsked(w.asked, put)
    requires var g := GroupAt(w.groups, to); put.client in g.lastPut && g.lastPut[put.client].id >= put.id
    ensures TookEffect(w.log, put)
  {
    var rec := GroupAt(w.groups, to).lastPut[put.client];
    assert TruthfulAt(w.groups, w.log, to);
    var j :| 0 <= j < |w.log| && w.log[j].PutDone? && w.log[j].put.client == put.client &&
      LastPut(w.log[j].put.id, w.log[j].err) == rec;
    assert IsAsked(w.asked, w.log[j].put) && Numbered(w, (put.client, rec.id));
    assert Done(w, (put.client, put.id));
  }

  /**
   * A Put executed by the group that serves its shard takes effect there and then if and only if it
   * has not taken effect before, wherever that was. Executed elsewhere it changes nothing and is
   * answered with ErrWrongGroup.
   */
  lemma PutsServedExactly(run: seq<World>, i: nat, env: Envelope)
    requires Run(run) && i < |run| && Possible(run[i], Execute(env)) && env.request.Put?
    ensures var w := run[i]; var w' := After(w, Execute(env));
      var serves := HasStatus(w, env.to, KeyShard(env.request.key), Serving);
      exists reply ::
        && w'.replies == w.replies + {(env, reply)}
        && (reply.err == ErrWrongGroup <==> !serves)
        && (!serves ==> w'.groups[env.to] == GroupAt(w.groups, env.to))
        && w'.log == w.log + (if serves && !TookEffect(w.log, env.request) then [PutDone(env.request, reply.err)] else [])
        && (serves ==> TookEffect(w'.log, env.request))
  {
    RunInv(run, i);
    RunDone(run, i);
    var w, put := run[i], env.request;
    PutExactly(w, env);
    var reply := DoOp(GroupAt(w.groups, env.to), env.request).reply;
    assert After(w, Execute(env)).replies == w.replies + {(env, reply)};
  }

  lemma PutExactly(w: World, env: Envelope)
    requires Inv(w) && ClientInv(w) && CallsDone(w) && Possible(w, Execute(env)) && env.request.Put?
    ensures var g := GroupAt(w.groups, env.to); var put := env.request; var w' := AfterExecute(w, env);
      var serves := g.slots[KeyShard(put.key)].status == Serving;
      && (Applies(g, put) <==> serves && !TookEffect(w.log, put))
      && (DoOp(g, put).reply.err == ErrWrongGroup <==> !serves)
      && (!serves ==> DoOp(g, put).group == g)
      && w'.log == w.log + (if Applies(g, put) then [PutDone(put, DoOp(g, put).reply.err)] else [])
      && (serves ==> TookEffect(w'.log, put))
  {
    var g, put, w' := GroupAt(w.groups, env.to), env.request, AfterExecute(w, env);
    AppliesExactly(w, env.to, put);
    if Applies(g, put) {
      assert w'.log[|w.log|].put == put;
    } else if g.slots[KeyShard(put.key)].status == Serving {
      RecordIsAnswer(w, env.to, put.client);
      EffectStays(w.log, w'.log, put);
    }
  }

  lemma AppliesExactly(w: World, to: Gid, put: PutRequest)
    requires Inv(w) && ClientInv(w) && CallsDone(w) && GroupAt(w.groups, to).Valid()
    requires exists env :: env in w.sent && env.request == put
    ensures var g := GroupAt(w.groups, to);
      Applies(g, put) <==> g.slots[KeyShard(put.key)].status == Serving && !TookEffect(w.log, put)
  {
    var env :| env in w.sent && env.request == put;
    assert IsAsked(w.asked, env.request) && SoundAt(w.groups, to);
    var g := GroupAt(w.groups, to);
    if Applies(g, put) {
      NewIsNew(w, to, put);
    } else if g.slots[KeyShard(put.key)].status == Serving {
      DuplicateTookEffect(w, to, put);
    }
  }

  lemma NewIsNew(w: World, to: Gid, put: PutRequest)
    requires Inv(w) && ClientInv(w) && SoundAt(w.groups, to) && Applies(GroupAt(w.groups, to), put) && IsAsked(w.asked, put)
    ensures !TookEffect(w.log, put)
  {
    forall i: nat | i < |w.log| && w.log[i].PutDone? ensures w.log[i].put != put {
      FirstTime(w, to, put, i);
    }
  }

  /** What is on record is an outcome. */
  lemma RecordIsAnswer(w: World, to: Gid, c: Client)
    requires Inv(w) && c in GroupAt(w.groups, to).lastPut
    ensures GroupAt(w.groups, to).lastPut[c].err in {OK, ErrNoKey, ErrVersion}
  {
    assert TruthfulAt(w.groups, w.log, to);
    var j :| 0 <= j < |w.log| && w.log[j].PutDone? && w.log[j].put.client == c &&
      LastPut(w.log[j].put.id, w.log[j].err) == GroupAt(w.groups, to).lastPut[c];
    assert Honest(Replay(w.log[..j]), w.log[j]);
  }

  /** The group is past the step that the request asks for: it has recorded a later configuration for the
      shard, or this one, with the shard given up, taken over or dropped. */
  ghost predicate Past(slot: Slot, req: Request)
    requires req.Freeze? || req.Install? || req.Delete?
  {
    || slot.num > req.num
    || (slot.num == req.num &&
        match req
        case Freeze(_, _) => slot.status != Serving
        case Install(_, _, _) => slot.status == Serving
        case _ => slot.status == Absent)
  }

  /**
   * For every group, whatever its state: Freeze, Install and Delete are answered OK if and only if the
   * group, after them, is past the step; otherwise with ErrIllegalOperation, and the group is as before.
   * A Freeze tells the number then recorded, and returns the shard's data and its clients' records if
   * that is its own number.
   */
  lemma MovesAnsweredExactly(g: Group, req: Request)
    requires Sound(g) && (req.Freeze? || req.Install? || req.Delete?) && DoOp(g, req).Done?
    ensures var out := DoOp(g, req); var slot := out.group.slots[req.shard];
      && out.group.Valid()
      && (out.reply.err == OK <==> Past(slot, req))
      && (out.reply.err != OK ==> out.reply.err == ErrIllegalOperation && out.group == g)
      && (req.Freeze? ==>
            && out.reply.FreezeReply? && out.reply.num == slot.num
            && (out.reply.state.Some? <==> out.reply.err == OK && slot.num == req.num)
            && (out.reply.state.Some? ==>
                  && out.reply.state.value.kv == Entries(g.slots[req.shard].kv)
                  && out.reply.state.value.lastPut.Keys == Members(g.slots[req.shard].clients)
                  && forall c :: c in out.reply.state.value.lastPut ==> out.reply.state.value.lastPut[c] == g.lastPut[c]))
  {
    assert SoundSlot(g.slots[req.shard], g.lastPut.Keys);
  }
}
