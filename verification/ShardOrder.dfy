/** The log respects real time: what a client is told took effect after it asked and before it was told. */
module ShardOrder {
  import opened ShardGroup
  import opened ShardWorld
  import opened ShardLedger
  import opened ShardClients
  import opened ShardSafety

  // ----- the invariant -----

  ghost predicate PutInTime(w: World, j: nat)
    requires j < |w.log| && w.log[j].PutDone?
  {
    var p := (w.log[j].put.client, w.log[j].put.id);
    p in w.began && w.began[p] <= j
  }

  /** The Get was served, with this reply, after the call was made. */
  ghost predicate ServedSince(w: World, call: nat, reply: Reply) {
    call in w.gets && exists j :: w.gets[call].began <= j < |w.log| && w.log[j] == GetDone(call, w.gets[call].key, reply)
  }

  ghost predicate IsCall(w: World, env: Envelope)
    requires env.request.Get?
  {
    env.from in w.gets && w.gets[env.from].key == env.request.key
  }

  ghost predicate TimeInv(w: World) {
    && w.began.Keys == w.asked.Keys
    && (forall p :: p in w.began ==> w.began[p] <= |w.log|)
    && (forall call :: call in w.gets ==> w.gets[call].began <= |w.log|)
    && (forall j: nat :: j < |w.log| && w.log[j].PutDone? ==> PutInTime(w, j))
    && (forall env :: env in w.sent && env.request.Get? ==> IsCall(w, env))
    && (forall r :: r in w.replies && r.0.request.Get? ==>
          IsCall(w, r.0) && (r.1.err == ErrWrongGroup || ServedSince(w, r.0.from, r.1)))
  }

  /** Calls once made keep their place, and the log only grows. */
  ghost predicate Later(w: World, w': World) {
    && w.log <= w'.log
    && (forall p :: p in w.began ==> p in w'.began && w'.began[p] == w.began[p])
    && (forall p :: p in w'.began && p !in w.began ==> w'.began[p] >= |w.log|)
    && (forall c :: c in w.gets ==> c in w'.gets && w'.gets[c].key == w.gets[c].key && w'.gets[c].began == w.gets[c].began)
    && (forall c :: c in w'.gets && c !in w.gets ==> w'.gets[c].began >= |w.log|)
  }

  lemma CallIsLater(w: World, act: ClientAct)
    requires CanCall(w, act) && (forall p :: p in w.asked ==> Numbered(w, p)) && w.began.Keys == w.asked.Keys
    ensures Later(w, AfterCall(w, act))
  {
  }

  lemma StepIsLater(w: World, step: Step)
    requires Possible(w, step) && ClientInv(w) && w.began.Keys == w.asked.Keys
    ensures Later(w, After(w, step))
  {
    if step.Call? {
      CallIsLater(w, step.act);
    } else if !step.Execute? {
      ControlChanges(w, step);
    }
  }

  lemma LaterServed(w: World, w': World, call: nat, reply: Reply)
    requires Later(w, w') && ServedSince(w, call, reply)
    ensures ServedSince(w', call, reply)
  {
    var j :| w.gets[call].began <= j < |w.log| && w.log[j] == GetDone(call, w.gets[call].key, reply);
    assert w'.log[j] == w.log[j];
  }

  /** Steps that log nothing and answer nothing. */
  lemma QuietKeeps(w: World, w': World)
    requires TimeInv(w) && Later(w, w') && w'.log == w.log && w'.replies == w.replies
    requires w'.began.Keys == w'.asked.Keys
    requires forall p :: p in w'.began ==> w'.began[p] <= |w'.log|
    requires forall c :: c in w'.gets ==> w'.gets[c].began <= |w'.log|
    requires forall env :: env in w'.sent && env !in w.sent && env.request.Get? ==> IsCall(w', env)
    ensures TimeInv(w')
  {
    forall j: nat | j < |w'.log| && w'.log[j].PutDone? ensures PutInTime(w', j) {
      assert PutInTime(w, j);
    }
    forall env | env in w'.sent && env.request.Get? ensures IsCall(w', env) {
      assert env in w.sent ==> IsCall(w, env);
    }
    forall r | r in w'.replies && r.0.request.Get?
      ensures IsCall(w', r.0) && (r.1.err == ErrWrongGroup || ServedSince(w', r.0.from, r.1))
    {
      assert IsCall(w, r.0);
      if r.1.err != ErrWrongGroup { LaterServed(w, w', r.0.from, r.1); }
    }
  }

  lemma ExecuteKeepsTime(w: World, env: Envelope)
    requires TimeInv(w) && ClientInv(w) && Possible(w, Execute(env)) && Later(w, AfterExecute(w, env))
    ensures TimeInv(AfterExecute(w, env))
  {
    var g, w' := GroupAt(w.groups, env.to), AfterExecute(w, env);
    forall j: nat | j < |w'.log| && w'.log[j].PutDone? ensures PutInTime(w', j) {
      if j < |w.log| { assert PutInTime(w, j); } else { assert IsAsked(w.asked, env.request); }
    }
    forall r | r in w'.replies && r.0.request.Get?
      ensures IsCall(w', r.0) && (r.1.err == ErrWrongGroup || ServedSince(w', r.0.from, r.1))
    {
      if r in w.replies {
        assert IsCall(w, r.0);
        if r.1.err != ErrWrongGroup { LaterServed(w, w', r.0.from, r.1); }
      } else {
        assert IsCall(w, env);
        if r.1.err != ErrWrongGroup { assert w'.log[|w.log|] == GetDone(env.from, env.request.key, r.1); }
      }
    }
  }

  lemma CallKeepsTime(w: World, act: ClientAct)
    requires TimeInv(w) && CanCall(w, act) && Later(w, AfterCall(w, act))
    ensures TimeInv(AfterCall(w, act))
  {
    QuietKeeps(w, AfterCall(w, act));
  }

  lemma StepKeepsTime(w: World, step: Step)
    requires TimeInv(w) && ClientInv(w) && Possible(w, step)
    ensures TimeInv(After(w, step)) && Later(w, After(w, step))
  {
    StepIsLater(w, step);
    if step.Execute? {
      ExecuteKeepsTime(w, step.env);
    } else if step.Call? {
      CallKeepsTime(w, step.act);
    } else {
      ControlChanges(w, step);
      QuietKeeps(w, After(w, step));
    }
  }

  // ----- runs -----

  lemma NextKeepsTime(w: World, w': World)
    requires TimeInv(w) && ClientInv(w) && Next(w, w')
    ensures TimeInv(w') && Later(w, w')
  {
    var step :| Possible(w, step) && w' == After(w, step);
    StepKeepsTime(w, step);
  }

  lemma {:induction false} RunTime(run: seq<World>, i: nat)
    requires Run(run) && i < |run|
    ensures TimeInv(run[i])
    decreases i, 1
  {
    if i > 0 { StepInTime(run, i); }
  }

  lemma {:induction false} StepInTime(run: seq<World>, i: nat)
    requires Run(run) && 0 < i < |run|
    ensures TimeInv(run[i]) && Later(run[i - 1], run[i])
    decreases i, 0
  {
    RunTime(run, i - 1);
    RunInv(run, i - 1);
    NextKeepsTime(run[i - 1], run[i]);
  }

  lemma LaterTwice(a: World, b: World, c: World)
    requires Later(a, b) && Later(b, c)
    ensures Later(a, c)
  {
  }

  lemma {:induction false} LaterThrough(run: seq<World>, i: nat, j: nat)
    requires i <= j < |run| && forall k :: 0 < k < |run| ==> Later(run[k - 1], run[k])
    ensures Later(run[i], run[j])
    decreases j
  {
    if i < j {
      LaterThrough(run, i, j - 1);
      LaterTwice(run[i], run[j - 1], run[j]);
    }
  }

  lemma RunLater(run: seq<World>, i: nat, j: nat)
    requires Run(run) && i <= j < |run|
    ensures Later(run[i], run[j])
  {
    forall k | 0 < k < |run| ensures Later(run[k - 1], run[k]) {
      StepInTime(run, k);
    }
    LaterThrough(run, i, j);
  }

  // ----- real time -----

  /** An act in which a client accepts the answer to a call. */
  ghost predicate Answered(w: World, act: ClientAct) {
    CanCall(w, act) && (act.HearPut? || act.HearGet?) && act.reply.err != ErrWrongGroup
  }

  /** What identifies a call. */
  datatype CallId = PutCall(cl: Client, id: nat) | GetCallId(call: nat)

  ghost function CallOf(w: World, act: ClientAct): CallId
    requires Answered(w, act)
  {
    if act.HearPut? then PutCall(act.cl, ClientAt(w, act.cl).pending.value.id) else GetCallId(act.call)
  }

  ghost predicate Made(w: World, c: CallId) {
    match c
    case PutCall(cl, id) => (cl, id) in w.began
    case GetCallId(call) => call in w.gets
  }

  /** How much had been served when the call was made. */
  ghost function CallPosition(w: World, c: CallId): nat
    requires Made(w, c)
  {
    match c
    case PutCall(cl, id) => w.began[(cl, id)]
    case GetCallId(call) => w.gets[call].began
  }

  ghost predicate EffectAt(w: World, act: ClientAct, j: nat)
    requires Answered(w, act)
  {
    j < |w.log| &&
    if act.HearPut? then w.log[j] == PutDone(ClientAt(w, act.cl).pending.value, act.reply.err)
    else w.log[j] == GetDone(act.call, w.gets[act.call].key, act.reply)
  }

  /** The operation whose outcome the answer is: one served after the call was made, and before now. */
  ghost predicate Serves(w: World, act: ClientAct, j: nat)
    requires Answered(w, act)
  {
    Made(w, CallOf(w, act)) && CallPosition(w, CallOf(w, act)) <= j && EffectAt(w, act, j)
  }

  /** Every answer a client accepts, to a Put or a Get, is that of an operation served within the call. */
  lemma AnswersInTime(run: seq<World>, i: nat, act: ClientAct) returns (j: nat)
    requires Run(run) && i < |run| && Answered(run[i], act)
    ensures Serves(run[i], act, j)
  {
    RunTime(run, i);
    var w := run[i];
    if act.HearPut? {
      j := AnswersAreTrue(run, i, act.cl, act.to, act.reply);
      assert PutInTime(w, j);
      RunInv(run, i);
      assert PendingOk(w, act.cl);
    } else {
      var r := (GetEnvelope(w, act.call, act.to), act.reply);
      assert r in w.replies && ServedSince(w, r.0.from, r.1);
      j :| w.gets[act.call].began <= j < |w.log| && w.log[j] == GetDone(act.call, w.gets[act.call].key, act.reply);
    }
  }

  /**
   * Real-time order: if one call was answered before another was made, then it was served before
   * it, in the one order in which all operations are answered as by a single table.
   */
  lemma RealTimeOrder(run: seq<World>, i: nat, k: nat, first: ClientAct, second: ClientAct, a: nat, b: nat)
    requires Run(run) && i <= k < |run| && Answered(run[i], first) && Answered(run[k], second)
    requires !Made(run[i], CallOf(run[k], second))
    requires Serves(run[i], first, a) && Serves(run[k], second, b)
    ensures a < b && run[i].log <= run[k].log && Legal(run[k].log)
  {
    RunLater(run, i, k);
    OneTable(run, k);
  }

  /** Different calls were served by different operations. */
  lemma CallsAreServedApart(run: seq<World>, i: nat, k: nat, first: ClientAct, second: ClientAct, a: nat, b: nat)
    requires Run(run) && i <= k < |run| && Answered(run[i], first) && Answered(run[k], second)
    requires CallOf(run[i], first) != CallOf(run[k], second)
    requires Serves(run[i], first, a) && Serves(run[k], second, b)
    ensures a != b
  {
    RunLater(run, i, k);
    ServedCall(run, i, first, a);
    ServedCall(run, k, second, b);
  }

  /** An operation belongs to one call. */
  ghost function CallAt(e: Event): CallId {
    match e
    case PutDone(put, _) => PutCall(put.client, put.id)
    case GetDone(call, _, _) => GetCallId(call)
  }

  lemma ServedCall(run: seq<World>, i: nat, act: ClientAct, j: nat)
    requires Run(run) && i < |run| && Answered(run[i], act) && Serves(run[i], act, j)
    ensures CallAt(run[i].log[j]) == CallOf(run[i], act)
  {
    RunInv(run, i);
    if act.HearPut? { assert PendingOk(run[i], act.cl); }
  }
}
