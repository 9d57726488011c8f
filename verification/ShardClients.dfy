/** Clients number their Puts and wait for each one; what that means for the log and the replies. */
module ShardClients {
  import opened ShardGroup
  import opened ShardWorld
  import opened ShardLayout
  import opened ShardLedger
  import opened ShardInvariant

  type AskedPuts = map<(Client, nat), PutRequest>

  ghost predicate IsAsked(asked: AskedPuts, put: PutRequest) {
    (put.client, put.id) in asked && asked[(put.client, put.id)] == put
  }

  ghost predicate Numbered(w: World, p: (Client, nat))
    requires p in w.asked
  {
    w.asked[p].client == p.0 && w.asked[p].id == p.1 <= ClientAt(w, p.0).counter
  }

  ghost predicate PendingOk(w: World, c: Client) {
    var st := ClientAt(w, c);
    st.pending.Some? ==> IsAsked(w.asked, st.pending.value) && st.pending.value.client == c && st.pending.value.id == st.counter
  }

  /** The reply is the Put's own outcome, unless its client has moved on. */
  ghost predicate Told(w: World, put: PutRequest, err: Err) {
    || err == ErrWrongGroup
    || Recorded(w.log, put.client, LastPut(put.id, err))
    || ClientAt(w, put.client).counter > put.id
  }

  ghost predicate ClientReplyOk(w: World, env: Envelope, reply: Reply) {
    env.request.Put? ==> Told(w, env.request, reply.err)
  }

  ghost predicate ClientInv(w: World) {
    && (forall p :: p in w.asked ==> Numbered(w, p))
    && (forall c :: c in w.clients ==> PendingOk(w, c))
    && (forall env :: env in w.sent && env.request.Put? ==> IsAsked(w.asked, env.request))
    && (forall i :: 0 <= i < |w.log| && w.log[i].PutDone? ==> IsAsked(w.asked, w.log[i].put))
    && Once(w.log)
    && (forall p :: p in w.replies ==> ClientReplyOk(w, p.0, p.1))
  }

  /** A Put that gets past the duplicate test has not taken effect anywhere before. */
  lemma FirstTime(w: World, to: Gid, put: PutRequest, i: nat)
    requires Inv(w) && ClientInv(w) && SoundAt(w.groups, to) && Applies(GroupAt(w.groups, to), put)
    requires IsAsked(w.asked, put) && i < |w.log| && w.log[i].PutDone?
    ensures (w.log[i].put.client, w.log[i].put.id) != (put.client, put.id)
  {
    var h, c, gs, s := w.history, w.store.current.num, w.groups, KeyShard(put.key);
    assert SlotAt(gs, to, s).status == Serving;
    ServingIsHost(h, c, gs, to, s);
    assert Hosted(h, c, gs, w.log, s);
    assert IsAsked(w.asked, w.log[i].put);
    if OnShard(w.log[i], s) {
      assert Remembers(Members(SlotAt(gs, to, s).clients), GroupAt(gs, to).lastPut, w.log[i]);
    }
  }

  /** A Put's reply is its own outcome, or a later Put of the client has been asked for. */
  lemma PutTold(w: World, env: Envelope)
    requires Inv(w) && ClientInv(w) && Possible(w, Execute(env)) && env.request.Put?
    ensures Told(AfterExecute(w, env), env.request, DoOp(GroupAt(w.groups, env.to), env.request).reply.err)
  {
    var g, put, w' := GroupAt(w.groups, env.to), env.request, AfterExecute(w, env);
    if Applies(g, put) {
      assert w'.log[|w.log|].put.id == put.id;
    } else if g.slots[KeyShard(put.key)].status == Serving {
      var rec := g.lastPut[put.client];
      assert TruthfulAt(w.groups, w.log, env.to);
      RecordedGrows(w.log, w'.log, put.client, rec);
      var i :| 0 <= i < |w.log| && w.log[i].PutDone? && w.log[i].put.client == put.client &&
        LastPut(w.log[i].put.id, w.log[i].err) == rec;
      assert IsAsked(w.asked, w.log[i].put);
      assert Numbered(w, (put.client, rec.id));
    }
  }

  lemma ReplyStays(w: World, w': World, env: Envelope, reply: Reply)
    requires w.log <= w'.log && ClientReplyOk(w, env, reply)
    requires forall c :: ClientAt(w, c).counter <= ClientAt(w', c).counter
    ensures ClientReplyOk(w', env, reply)
  {
    if env.request.Put? && Recorded(w.log, env.request.client, LastPut(env.request.id, reply.err)) {
      RecordedGrows(w.log, w'.log, env.request.client, LastPut(env.request.id, reply.err));
    }
  }

  lemma ExecuteKeepsOnce(w: World, env: Envelope)
    requires Inv(w) && ClientInv(w) && Possible(w, Execute(env))
    ensures Once(AfterExecute(w, env).log)
    ensures forall i :: 0 <= i < |AfterExecute(w, env).log| && AfterExecute(w, env).log[i].PutDone? ==>
              IsAsked(w.asked, AfterExecute(w, env).log[i].put)
  {
    var g, w' := GroupAt(w.groups, env.to), AfterExecute(w, env);
    assert SoundAt(w.groups, env.to);
    if env.request.Put? && Applies(g, env.request) {
      forall i: nat | i < |w.log| && w.log[i].PutDone?
        ensures (w.log[i].put.client, w.log[i].put.id) != (env.request.client, env.request.id)
      {
        FirstTime(w, env.to, env.request, i);
      }
    }
  }

  lemma ExecuteKeepsClients(w: World, env: Envelope)
    requires Inv(w) && ClientInv(w) && Possible(w, Execute(env))
    ensures ClientInv(AfterExecute(w, env))
  {
    var w' := AfterExecute(w, env);
    ExecuteKeepsOnce(w, env);
    assert forall p :: p in w.asked ==> Numbered(w, p) == Numbered(w', p);
    assert forall c :: c in w.clients ==> PendingOk(w, c) == PendingOk(w', c);
    forall p | p in w'.replies ensures ClientReplyOk(w', p.0, p.1) {
      if p in w.replies {
        ReplyStays(w, w', p.0, p.1);
      } else {
        if env.request.Put? { PutTold(w, env); }
      }
    }
  }

  lemma StartPutKeepsClients(w: World, cl: Client, key: Key, value: string, version: nat)
    requires ClientInv(w) && ClientAt(w, cl).pending.None?
    ensures ClientInv(AfterStartPut(w, cl, key, value, version))
  {
    var w' := AfterStartPut(w, cl, key, value, version);
    var id := ClientAt(w, cl).counter + 1;
    forall put: PutRequest | IsAsked(w.asked, put) ensures IsAsked(w'.asked, put) {
      assert Numbered(w, (put.client, put.id));
    }
    forall p | p in w'.asked ensures Numbered(w', p) {
      assert p != (cl, id) ==> Numbered(w, p);
    }
    forall c | c in w'.clients ensures PendingOk(w', c) {
      assert c != cl ==> PendingOk(w, c);
    }
    forall p | p in w'.replies ensures ClientReplyOk(w', p.0, p.1) {
      ReplyStays(w, w', p.0, p.1);
    }
  }

  lemma HearPutKeepsClients(w: World, cl: Client, reply: Reply)
    requires ClientInv(w) && ClientAt(w, cl).pending.Some?
    ensures ClientInv(AfterHearPut(w, cl, reply))
  {
    var w' := AfterHearPut(w, cl, reply);
    forall p | p in w'.asked ensures Numbered(w', p) {
      assert Numbered(w, p);
    }
    forall c | c in w'.clients ensures PendingOk(w', c) {
      assert PendingOk(w, c);
    }
    forall p | p in w'.replies ensures ClientReplyOk(w', p.0, p.1) {
      ReplyStays(w, w', p.0, p.1);
    }
  }

  /** The controllers' steps and the sending of Gets and Puts. */
  ghost predicate SameClients(w: World, w': World) {
    && w'.asked == w.asked && w'.clients == w.clients && w'.log == w.log && w'.replies == w.replies
    && forall env :: env in w'.sent && env.request.Put? ==> env in w.sent || IsAsked(w.asked, env.request)
  }

  lemma OthersKeepClients(w: World, w': World)
    requires ClientInv(w) && SameClients(w, w')
    ensures ClientInv(w')
  {
    assert forall p :: p in w.asked ==> Numbered(w, p) == Numbered(w', p);
    assert forall c :: c in w.clients ==> PendingOk(w, c) == PendingOk(w', c);
    forall p | p in w'.replies ensures ClientReplyOk(w', p.0, p.1) {
      ReplyStays(w, w', p.0, p.1);
    }
  }

  /** Nothing the clients or the groups do has changed. */
  ghost predicate OnlyControl(w: World, w': World) {
    && w'.asked == w.asked && w'.clients == w.clients && w'.began == w.began && w'.gets == w.gets
    && w'.log == w.log && w'.replies == w.replies
    && forall env :: env in w'.sent && (env.request.Put? || env.request.Get?) ==> env in w.sent
  }

  lemma TurnChanges(w: World, c: nat, state: Controller)
    ensures OnlyControl(w, SetController(w, c, state)) && SetController(w, c, state).store == w.store
  {
  }

  lemma ReadNextChanges(w: World, c: nat)
    requires ControllerAt(w, c).KnowsOld?
    ensures OnlyControl(w, AfterReadNext(w, c)) && AfterReadNext(w, c).store == w.store
  {
  }

  lemma SaveCurrentChanges(w: World, c: nat)
    requires ControllerAt(w, c).Migrating?
    ensures OnlyControl(w, AfterSaveCurrent(w, c)) && AfterSaveCurrent(w, c).store == w.store
  {
  }

  lemma ControlChanges(w: World, step: Step)
    requires Possible(w, step) && !step.Execute? && !step.Call?
    ensures OnlyControl(w, After(w, step)) && (!step.ApplyCas? ==> After(w, step).store == w.store)
  {
    if OnlyController(step) {
      TurnChanges(w, step.c, Turned(w, step));
    } else if step.ReadNext? {
      ReadNextChanges(w, step.c);
    } else if step.SaveCurrent? {
      SaveCurrentChanges(w, step.c);
    }
  }

  lemma CallKeepsClients(w: World, act: ClientAct)
    requires ClientInv(w) && CanCall(w, act)
    ensures ClientInv(AfterCall(w, act))
  {
    if act.StartPut? {
      StartPutKeepsClients(w, act.cl, act.key, act.value, act.version);
    } else if act.HearPut? {
      HearPutKeepsClients(w, act.cl, act.reply);
    } else {
      if act.SendPut? { assert PendingOk(w, act.cl); }
      OthersKeepClients(w, AfterCall(w, act));
    }
  }

  lemma StepKeepsClients(w: World, step: Step)
    requires Inv(w) && ClientInv(w) && Possible(w, step)
    ensures ClientInv(After(w, step))
  {
    if step.Execute? {
      ExecuteKeepsClients(w, step.env);
    } else if step.Call? {
      CallKeepsClients(w, step.act);
    } else {
      ControlChanges(w, step);
      OthersKeepClients(w, After(w, step));
    }
  }
}
