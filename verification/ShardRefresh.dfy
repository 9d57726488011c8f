/**
 * The client's cached configuration (src/shardkv/client.go): any number of goroutines call
 * getConfig and refreshConfig, at most one of which queries the configuration store at a time.
 * A configuration is represented by its number; channels are numbered as they are made.
 */
module ShardRefresh {
  import opened ShardGroup

  datatype Thread =
    | Outside
    | Decided(channel: nat)                                   // getConfig has looked and will refresh
    | Querying(waits: Option<nat>)                            // in refreshConfig, the query is under way
    | Fetched(waits: Option<nat>, num: nat)                   // it has returned, the lock is not yet held
    | Waiting(channel: nat)

  predicate InFlight(t: Thread) {
    t.Querying? || t.Fetched?
  }

  datatype Clerk = Clerk(
    fetching: bool,
    channel: nat,
    closed: set<nat>,
    cached: Option<nat>,
    store: nat,                                               // number of the current configuration
    threads: map<nat, Thread>
  )

  function ThreadAt(k: Clerk, t: nat): Thread {
    if t in k.threads then k.threads[t] else Outside
  }

  function Becomes(k: Clerk, t: nat, thread: Thread): Clerk {
    k.(threads := k.threads[t := thread])
  }

  predicate Init(k: Clerk) {
    !k.fetching && k.channel == 0 && k.closed == {} && k.cached == None && k.threads == map[]
  }

  datatype Step =
    | Advance(num: nat)
    | Look(t: nat)
    | Refresh(t: nat)
    | Answer(t: nat)
    | Finish(t: nat)
    | Wake(t: nat)

  predicate Possible(k: Clerk, step: Step) {
    match step
    case Advance(num) => num >= k.store
    case Look(t) => ThreadAt(k, t).Outside?
    case Refresh(t) => ThreadAt(k, t).Outside? || ThreadAt(k, t).Decided?
    case Answer(t) => ThreadAt(k, t).Querying?
    case Finish(t) => ThreadAt(k, t).Fetched?
    case Wake(t) => ThreadAt(k, t).Waiting? && ThreadAt(k, t).channel in k.closed
  }

  function Next(k: Clerk, step: Step): Clerk
    requires Possible(k, step)
  {
    match step
    case Advance(num) => k.(store := num)
    case Look(t) => if !k.fetching && k.cached.Some? then k else Becomes(k, t, Decided(k.channel))
    case Refresh(t) =>
      var waits := if ThreadAt(k, t).Decided? then Some(ThreadAt(k, t).channel) else None;
      if !k.fetching then Becomes(k, t, Querying(waits)).(fetching := true)
      else if waits.Some? then Becomes(k, t, Waiting(waits.value))
      else k
    case Answer(t) => Becomes(k, t, Fetched(ThreadAt(k, t).waits, k.store))
    case Finish(t) =>
      var me := ThreadAt(k, t);
      Becomes(k, t, if me.waits.Some? then Waiting(me.waits.value) else Outside)
      .(cached := Some(me.num), fetching := false, closed := k.closed + {k.channel}, channel := k.channel + 1)
    case Wake(t) => Becomes(k, t, Outside)
  }

  ghost predicate Run(states: seq<Clerk>, steps: seq<Step>) {
    && |states| == |steps| + 1 && Init(states[0])
    && forall i :: 0 <= i < |steps| ==> Possible(states[i], steps[i]) && states[i + 1] == Next(states[i], steps[i])
  }

  // ----- the invariant -----

  ghost predicate ThreadOk(k: Clerk, t: nat) {
    match ThreadAt(k, t)
    case Outside => true
    case Decided(channel) => channel <= k.channel
    case Querying(waits) => k.fetching && (waits.Some? ==> waits.value <= k.channel)
    case Fetched(waits, num) =>
      && k.fetching && (waits.Some? ==> waits.value <= k.channel)
      && num <= k.store && (k.cached.Some? ==> k.cached.value <= num)
    case Waiting(channel) => channel < k.channel || (channel == k.channel && k.fetching)
  }

  /** The thread whose query is under way. */
  ghost predicate Flies(k: Clerk, t: nat) {
    InFlight(ThreadAt(k, t))
  }

  ghost predicate NoQuery(k: Clerk) {
    forall u: nat :: !Flies(k, u)
  }

  ghost predicate Inv(k: Clerk) {
    && (forall c: nat :: c in k.closed <==> c < k.channel)
    && (k.cached.Some? ==> k.cached.value <= k.store)
    && (forall t: nat :: ThreadOk(k, t))
    && (k.fetching ==> exists t: nat :: Flies(k, t))
    && (forall t: nat, u: nat :: Flies(k, t) && Flies(k, u) ==> t == u)
  }

  lemma ThreadsKept(k: Clerk, step: Step, t: nat)
    requires Inv(k) && Possible(k, step)
    ensures ThreadOk(Next(k, step), t)
  {
    assert ThreadOk(k, t);
    if !step.Advance? {
      assert ThreadOk(k, step.t);
      assert Flies(k, t) && Flies(k, step.t) ==> t == step.t;
    }
  }

  lemma FlightKept(k: Clerk, step: Step) returns (t: nat)
    requires Inv(k) && Possible(k, step) && Next(k, step).fetching
    ensures Flies(Next(k, step), t)
  {
    if k.fetching {
      t :| Flies(k, t);
      assert !step.Advance? && Flies(k, step.t) ==> t == step.t;
    } else {
      t := step.t;
    }
  }

  lemma NextKeeps(k: Clerk, step: Step)
    requires Inv(k) && Possible(k, step)
    ensures Inv(Next(k, step))
  {
    var k' := Next(k, step);
    if step.Finish? { assert ThreadOk(k, step.t); }
    forall t: nat ensures ThreadOk(k', t) {
      ThreadsKept(k, step, t);
    }
    forall t: nat, u: nat | Flies(k', t) && Flies(k', u) ensures t == u {
      assert ThreadOk(k, t) && ThreadOk(k, u);
      assert Flies(k, t) && Flies(k, u) ==> t == u;
    }
    if k'.fetching { var _ := FlightKept(k, step); }
  }

  lemma {:induction false} RunInv(states: seq<Clerk>, steps: seq<Step>, i: nat)
    requires Run(states, steps) && i < |states|
    ensures Inv(states[i])
  {
    if i > 0 {
      RunInv(states, steps, i - 1);
      NextKeeps(states[i - 1], steps[i - 1]);
    }
  }

  // ----- what it means -----

  /** At most one query is under way. */
  lemma SingleFlight(states: seq<Clerk>, steps: seq<Step>, i: nat, t: nat, u: nat)
    requires Run(states, steps) && i < |states| && InFlight(ThreadAt(states[i], t)) && InFlight(ThreadAt(states[i], u))
    ensures t == u
  {
    RunInv(states, steps, i);
    assert Flies(states[i], t) && Flies(states[i], u);
  }

  /** Nobody waits in vain: a waiter's channel is closed, or a query is under way and the moment
      that query's caller finishes, the channel is closed. */
  lemma WaitersWake(states: seq<Clerk>, steps: seq<Step>, i: nat, t: nat)
    requires Run(states, steps) && i < |states| && ThreadAt(states[i], t).Waiting?
    ensures ThreadAt(states[i], t).channel in states[i].closed || exists u: nat :: Flies(states[i], u)
    ensures forall u: nat :: Possible(states[i], Finish(u)) ==>
              var k' := Next(states[i], Finish(u));
              ThreadAt(k', t) == ThreadAt(states[i], t) && ThreadAt(k', t).channel in k'.closed
  {
    RunInv(states, steps, i);
    assert ThreadOk(states[i], t);
  }

  /** The cached configuration never goes back. */
  lemma {:induction false} CacheNeverDecreases(states: seq<Clerk>, steps: seq<Step>, i: nat, j: nat)
    requires Run(states, steps) && i <= j < |states| && states[i].cached.Some?
    ensures states[j].cached.Some? && states[i].cached.value <= states[j].cached.value <= states[j].store
    decreases j
  {
    RunInv(states, steps, j);
    if i < j {
      CacheNeverDecreases(states, steps, i, j - 1);
      RunInv(states, steps, j - 1);
      if steps[j - 1].Finish? { assert ThreadOk(states[j - 1], steps[j - 1].t); }
    }
  }

  /** A caller that looks is content with the cache if and only if there is one and no query is under way. */
  lemma LooksExactly(states: seq<Clerk>, steps: seq<Step>, i: nat, t: nat)
    requires Run(states, steps) && i < |states| && Possible(states[i], Look(t))
    ensures var k' := Next(states[i], Look(t));
      if states[i].cached.Some? && NoQuery(states[i]) then k' == states[i]
      else ThreadAt(k', t) == Decided(states[i].channel)
  {
    RunInv(states, steps, i);
    if states[i].fetching {
      var u: nat :| Flies(states[i], u);
    } else {
      forall u: nat ensures !Flies(states[i], u) { assert ThreadOk(states[i], u); }
    }
  }

  /** A refresh starts a query if and only if none is under way. */
  lemma QueriesExactly(states: seq<Clerk>, steps: seq<Step>, i: nat, t: nat)
    requires Run(states, steps) && i < |states| && Possible(states[i], Refresh(t))
    ensures ThreadAt(Next(states[i], Refresh(t)), t).Querying? <==> NoQuery(states[i])
  {
    RunInv(states, steps, i);
    if states[i].fetching {
      var u: nat :| Flies(states[i], u);
    } else {
      forall u: nat ensures !Flies(states[i], u) { assert ThreadOk(states[i], u); }
    }
  }

  /** Until it finishes, a thread keeps what it fetched. */
  lemma {:induction false} FetchedIsKept(states: seq<Clerk>, steps: seq<Step>, a: nat, b: nat, t: nat)
    requires Run(states, steps) && a < b < |states| && steps[a] == Answer(t)
    requires forall x :: a < x < b ==> steps[x] != Finish(t)
    ensures ThreadAt(states[b], t).Fetched? && ThreadAt(states[b], t).num == states[a].store
    decreases b
  {
    if a + 1 < b {
      FetchedIsKept(states, steps, a, b - 1, t);
      assert steps[b - 1] != Finish(t);
    }
  }

  /** When a query is finished, the cache is what the store held when the query was answered, and those
      who wait for it can go on. */
  lemma CacheIsWhatWasRead(states: seq<Clerk>, steps: seq<Step>, a: nat, b: nat, t: nat)
    requires Run(states, steps) && a < b < |steps| && steps[a] == Answer(t) && steps[b] == Finish(t)
    requires forall x :: a < x < b ==> steps[x] != Finish(t)
    ensures states[b + 1].cached == Some(states[a].store) && states[b].channel in states[b + 1].closed
    ensures NoQuery(states[b + 1])
  {
    FetchedIsKept(states, steps, a, b, t);
    RunInv(states, steps, b);
    RunInv(states, steps, b + 1);
    var k := states[b + 1];
    forall u: nat ensures !Flies(k, u) { assert ThreadOk(k, u); }
  }

  // ----- callers can return -----

  lemma Extend(states: seq<Clerk>, steps: seq<Step>, step: Step) returns (states': seq<Clerk>, steps': seq<Step>)
    requires Run(states, steps) && Possible(states[|steps|], step)
    ensures Run(states', steps') && states <= states' && |steps'| == |steps| + 1
    ensures states'[|steps'|] == Next(states[|steps|], step)
  {
    states', steps' := states + [Next(states[|steps|], step)], steps + [step];
  }

  /** The query under way can end, and no other thread is disturbed. */
  lemma QueryEnds(states: seq<Clerk>, steps: seq<Step>, u: nat) returns (states': seq<Clerk>, steps': seq<Step>)
    requires Run(states, steps) && Flies(states[|steps|], u)
    ensures Run(states', steps') && states <= states'
    ensures var k, k' := states[|steps|], states'[|steps'|];
      && k.channel in k'.closed && k.closed <= k'.closed
      && (forall t: nat :: t != u ==> ThreadAt(k', t) == ThreadAt(k, t))
      && ThreadAt(k', u) == (if ThreadAt(k, u).waits.Some? then Waiting(ThreadAt(k, u).waits.value) else Outside)
  {
    states', steps' := states, steps;
    if ThreadAt(states[|steps|], u).Querying? {
      states', steps' := Extend(states', steps', Answer(u));
    }
    states', steps' := Extend(states', steps', Finish(u));
  }

  lemma WaiterReturns(states: seq<Clerk>, steps: seq<Step>, t: nat) returns (states': seq<Clerk>, steps': seq<Step>)
    requires Run(states, steps) && ThreadAt(states[|steps|], t).Waiting?
    ensures Run(states', steps') && states <= states' && ThreadAt(states'[|steps'|], t).Outside?
  {
    states', steps' := states, steps;
    var k := states[|steps|];
    RunInv(states, steps, |steps|);
    assert ThreadOk(k, t);
    if ThreadAt(k, t).channel !in k.closed {
      var u: nat :| Flies(k, u);
      states', steps' := QueryEnds(states, steps, u);
    }
    states', steps' := Extend(states', steps', Wake(t));
  }

  /** From every state of every run, a caller can get out: nobody is left waiting, or refreshing for ever. */
  lemma CallersCanReturn(states: seq<Clerk>, steps: seq<Step>, t: nat) returns (states': seq<Clerk>, steps': seq<Step>)
    requires Run(states, steps)
    ensures Run(states', steps') && states <= states' && ThreadAt(states'[|steps'|], t).Outside?
  {
    states', steps' := states, steps;
    if ThreadAt(states'[|steps'|], t).Decided? {
      states', steps' := Extend(states', steps', Refresh(t));
    }
    if Flies(states'[|steps'|], t) {
      states', steps' := QueryEnds(states', steps', t);
    }
    if ThreadAt(states'[|steps'|], t).Waiting? {
      states', steps' := WaiterReturns(states', steps', t);
    }
  }
}
