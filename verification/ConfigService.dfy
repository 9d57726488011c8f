/**
 * The unreplicated key/value server that holds the configurations (src/kvsrv/server.go) and its
 * clerk's retry loop (src/kvsrv/client.go). A lost request is sent again unchanged; what makes
 * that safe is the version in it.
 */
module ConfigService {
  import opened ShardGroup

  datatype PutArgs = PutArgs(key: Key, value: string, version: nat)

  function Apply(t: Table, put: PutArgs): Table {
    Store(t, put.key, put.value, put.version).0
  }

  function ApplyAll(t: Table, puts: seq<PutArgs>): Table {
    if puts == [] then t else Apply(ApplyAll(t, puts[..|puts| - 1]), puts[|puts| - 1])
  }

  function VersionOf(t: Table, key: Key): nat {
    if key in t then t[key].version else 0
  }

  /** A write is accepted exactly when it names the version the key has, which then goes up by one. */
  lemma StoreIsCas(t: Table, put: PutArgs)
    requires forall key :: key in t ==> t[key].version > 0
    ensures var (t', err) := Store(t, put.key, put.value, put.version);
      && (err == OK <==> VersionOf(t, put.key) == put.version)
      && (err == OK ==> VersionOf(t', put.key) == put.version + 1 && t' - {put.key} == t - {put.key})
      && (err != OK ==> t' == t)
      && forall key :: key in t' ==> t'[key].version > 0
  {
  }

  lemma {:induction false} VersionsGrow(t: Table, puts: seq<PutArgs>, key: Key)
    requires forall k :: k in t ==> t[k].version > 0
    ensures VersionOf(t, key) <= VersionOf(ApplyAll(t, puts), key)
    ensures forall k :: k in ApplyAll(t, puts) ==> ApplyAll(t, puts)[k].version > 0
  {
    if puts != [] {
      VersionsGrow(t, puts[..|puts| - 1], key);
    }
  }

  /** The values the key has been given: a write counts if its version is their number so far. */
  function Values(puts: seq<PutArgs>, key: Key): seq<string> {
    if puts == [] then []
    else
      var put, before := puts[|puts| - 1], Values(puts[..|puts| - 1], key);
      if put.key == key && put.version == |before| then before + [put.value] else before
  }

  lemma {:induction false} TableIsValues(puts: seq<PutArgs>, key: Key)
    ensures var t, values := ApplyAll(map[], puts), Values(puts, key);
      && (key in t <==> values != [])
      && (key in t ==> t[key] == VersionedValue(values[|values| - 1], |values|))
  {
    if puts != [] { TableIsValues(puts[..|puts| - 1], key); }
  }

  /** After any writes to a new server, a Get answers with the last value that was accepted and with
      their number, or with ErrNoKey if there was none. */
  lemma GetsReadTheLastWrite(puts: seq<PutArgs>, key: Key)
    ensures var reply := Lookup(ApplyAll(map[], puts), key); var values := Values(puts, key);
      && reply.GetReply?
      && (reply.err == OK <==> values != [])
      && (values != [] ==> reply.value == values[|values| - 1] && reply.version == |values|)
      && (values == [] ==> reply.value == "" && reply.version == 0 && reply.err == ErrNoKey)
  {
    TableIsValues(puts, key);
  }

  class KVServer {
    var kvm: Table

    ghost predicate Valid()
      reads this
    {
      forall key :: key in kvm ==> kvm[key].version > 0
    }

    constructor ()
      ensures Valid() && kvm == map[]
    {
      kvm := map[];
    }

    method Get(key: Key) returns (reply: Reply)
      ensures reply == Lookup(kvm, key)
    {
      if key !in kvm {
        return GetReply("", 0, ErrNoKey);
      }
      reply := GetReply(kvm[key].value, kvm[key].version, OK);
    }

    method Put(args: PutArgs) returns (err: Err)
      requires Valid()
      modifies this
      ensures Valid() && (kvm, err) == Store(old(kvm), args.key, args.value, args.version)
    {
      if args.key in kvm {
        if kvm[args.key].version == args.version {
          kvm := kvm[args.key := VersionedValue(args.value, args.version + 1)];
          err := OK;
        } else {
          err := ErrVersion;
        }
      } else if args.version == 0 {
        kvm := kvm[args.key := VersionedValue(args.value, 1)];
        err := OK;
      } else {
        err := ErrNoKey;
      }
    }
  }

  // ----- the clerk -----

  /** What becomes of one attempt: it may be executed much later or never, or its reply be lost. */
  datatype Fate = Delayed | Unanswered | Answered

  /** What else is executed: another client's write, or an attempt of this one that was delayed. */
  datatype Meanwhile = Other(put: PutArgs) | Late

  datatype Attempt = Attempt(before: seq<Meanwhile>, fate: Fate)

  datatype Result = Waiting | Told(err: Err) | Maybe

  /** The table, the attempts still under way, and how often the write has been accepted. */
  datatype Progress = Progress(table: Table, pending: nat, accepted: nat)

  function Written(p: Progress, args: PutArgs): Progress {
    Progress(Apply(p.table, args), p.pending,
             if Store(p.table, args.key, args.value, args.version).1 == OK then p.accepted + 1 else p.accepted)
  }

  function Happened(p: Progress, args: PutArgs, event: Meanwhile): Progress {
    match event
    case Other(put) => p.(table := Apply(p.table, put))
    case Late => if p.pending == 0 then p else Written(p.(pending := p.pending - 1), args)
  }

  function AllHappened(p: Progress, args: PutArgs, events: seq<Meanwhile>): Progress {
    if events == [] then p
    else Happened(AllHappened(p, args, events[..|events| - 1]), args, events[|events| - 1])
  }

  ghost predicate Counted(p: Progress, args: PutArgs) {
    && (forall key :: key in p.table ==> p.table[key].version > 0)
    && p.accepted <= 1
    && (p.accepted == 1 ==> VersionOf(p.table, args.key) > args.version)
  }

  lemma WrittenCounts(p: Progress, args: PutArgs)
    requires Counted(p, args)
    ensures Counted(Written(p, args), args)
    ensures VersionOf(p.table, args.key) <= VersionOf(Written(p, args).table, args.key)
    ensures VersionOf(p.table, args.key) >= args.version ==> VersionOf(Written(p, args).table, args.key) > args.version
  {
    StoreIsCas(p.table, args);
  }

  lemma {:induction false} HappenedCounts(p: Progress, args: PutArgs, events: seq<Meanwhile>)
    requires Counted(p, args)
    ensures var p' := AllHappened(p, args, events);
      && Counted(p', args)
      && VersionOf(p.table, args.key) <= VersionOf(p'.table, args.key)
      && p.accepted <= p'.accepted
      && (p.pending == 0 ==> p'.pending == 0 && p'.accepted == p.accepted)
  {
    if events != [] {
      var q := AllHappened(p, args, events[..|events| - 1]);
      HappenedCounts(p, args, events[..|events| - 1]);
      match events[|events| - 1]
      case Other(put) => StoreIsCas(q.table, put);
      case Late => if q.pending > 0 { WrittenCounts(q.(pending := q.pending - 1), args); }
    }
  }

  method Interleave(server: KVServer, args: PutArgs, events: seq<Meanwhile>, pending: nat, accepted: nat)
      returns (pending': nat, accepted': nat)
    requires server.Valid()
    modifies server
    ensures server.Valid()
    ensures Progress(server.kvm, pending', accepted') ==
            AllHappened(Progress(old(server.kvm), pending, accepted), args, events)
  {
    pending', accepted' := pending, accepted;
    for i := 0 to |events|
      invariant server.Valid()
      invariant Progress(server.kvm, pending', accepted') ==
                AllHappened(Progress(old(server.kvm), pending, accepted), args, events[..i])
    {
      assert events[..i + 1][..i] == events[..i];
      match events[i]
      case Other(put) =>
        var _ := server.Put(put);
      case Late =>
        if pending' > 0 {
          var err := server.Put(args);
          pending' := pending' - 1;
          if err == OK {
            accepted' := accepted' + 1;
          }
        }
    }
    assert events[..|events|] == events;
  }

  /**
   * However many attempts it takes, whatever others write in between, and however late an attempt
   * is executed, even after the clerk has returned, the write is accepted at most once. The first
   * answer settles a first attempt: OK means it was accepted, an error that it never is. Any later
   * answer is reported as Maybe, even if it says OK. Once the clerk has an answer about a key that
   * had at least the version written, the key has a later one.
   */
  method ClerkPut(server: KVServer, args: PutArgs, attempts: seq<Attempt>, after: seq<Meanwhile>)
      returns (result: Result, accepted: nat)
    requires server.Valid()
    modifies server
    ensures server.Valid() && VersionOf(server.kvm, args.key) >= VersionOf(old(server.kvm), args.key)
    ensures accepted <= 1 && (accepted == 1 ==> VersionOf(server.kvm, args.key) > args.version)
    ensures result == Told(OK) ==> accepted == 1
    ensures result.Told? && result.err != OK ==> accepted == 0
    ensures result != Waiting && VersionOf(old(server.kvm), args.key) >= args.version ==>
              VersionOf(server.kvm, args.key) > args.version
    ensures result == Waiting <==> forall a :: a in attempts ==> !a.fate.Answered?
    ensures result.Told? <==> attempts != [] && attempts[0].fate.Answered?
  {
    var pending := 0;
    result, accepted := Waiting, 0;
    for i := 0 to |attempts|
      invariant server.Valid() && VersionOf(server.kvm, args.key) >= VersionOf(old(server.kvm), args.key)
      invariant Counted(Progress(server.kvm, pending, accepted), args)
      invariant i == 0 ==> accepted == 0 && pending == 0
      invariant forall j :: 0 <= j < i ==> !attempts[j].fate.Answered?
    {
      HappenedCounts(Progress(server.kvm, pending, accepted), args, attempts[i].before);
      pending, accepted := Interleave(server, args, attempts[i].before, pending, accepted);
      if attempts[i].fate.Delayed? {
        pending := pending + 1;
      } else {
        WrittenCounts(Progress(server.kvm, pending, accepted), args);
        var err := server.Put(args);
        if err == OK {
          accepted := accepted + 1;
        }
        if attempts[i].fate.Answered? {
          result := if i == 0 then Told(err) else Maybe;
          break;
        }
      }
    }
    HappenedCounts(Progress(server.kvm, pending, accepted), args, after);
    pending, accepted := Interleave(server, args, after, pending, accepted);
  }
}
