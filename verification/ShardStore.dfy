/**
 * The configuration store of the sharded world is the versioned key/value server: its two
 * configurations are two keys, and every change to them is one of the server's Puts.
 */
module ShardStore {
  import opened ConfigService
  import opened ShardGroup
  import opened ShardWorld
  import opened ShardInvariant
  import opened ShardClients
  import opened ShardSafety

  function FieldKey(field: Field): Key {
    match field
    case CurrentConfig => Key("currentConfig", 0)
    case NextConfig => Key("nextConfig", 0)
  }

  /** The server's table, for some way of writing configurations down. */
  function AsTable(store: ConfigStore, encode: Config -> string): (t: Table)
    ensures VersionOf(t, FieldKey(CurrentConfig)) == store.currentVersion
    ensures VersionOf(t, FieldKey(NextConfig)) == store.nextVersion
  {
    assert FieldKey(CurrentConfig).name[0] != FieldKey(NextConfig).name[0];
    map[FieldKey(CurrentConfig) := VersionedValue(encode(store.current), store.currentVersion),
        FieldKey(NextConfig) := VersionedValue(encode(store.next), store.nextVersion)]
  }

  function AsPut(cas: Cas, encode: Config -> string): PutArgs {
    PutArgs(FieldKey(cas.field), encode(cas.config), cas.version)
  }

  /** A write by a controller is accepted, and changes the store, exactly as the server's Put. */
  lemma WriteIsPut(store: ConfigStore, cas: Cas, encode: Config -> string)
    ensures var (t', err) := Store(AsTable(store, encode), FieldKey(cas.field), encode(cas.config), cas.version);
      t' == AsTable(Write(store, cas), encode) && (err == OK <==> Accepts(store, cas))
  {
    assert FieldKey(CurrentConfig).name[0] != FieldKey(NextConfig).name[0];
  }

  /** Only an executed write changes the store. */
  lemma OthersKeepStore(w: World, step: Step)
    requires Possible(w, step) && !step.ApplyCas?
    ensures After(w, step).store == w.store
  {
    if step.Call? {
      CallChanges(w, step.act);
    } else if !step.Execute? {
      ControlChanges(w, step);
    }
  }

  lemma NextIsPut(w: World, w': World, encode: Config -> string) returns (puts: seq<PutArgs>)
    requires Next(w, w')
    ensures AsTable(w'.store, encode) == ApplyAll(AsTable(w.store, encode), puts)
  {
    var step :| Possible(w, step) && w' == After(w, step);
    if step.ApplyCas? {
      WriteIsPut(w.store, step.cas, encode);
      puts := [AsPut(step.cas, encode)];
      assert puts[..0] == [];
    } else {
      OthersKeepStore(w, step);
      puts := [];
    }
  }

  lemma {:induction false} ApplyAllSplits(t: Table, a: seq<PutArgs>, b: seq<PutArgs>)
    ensures ApplyAll(t, a + b) == ApplyAll(ApplyAll(t, a), b)
  {
    if b == [] {
      assert a + b == a;
    } else {
      assert (a + b)[..|a + b| - 1] == a + b[..|b| - 1];
      ApplyAllSplits(t, a, b[..|b| - 1]);
    }
  }

  /** In every run the store is the server, after the Puts it has executed in between. */
  lemma {:induction false} StoreIsServer(run: seq<World>, i: nat, j: nat, encode: Config -> string)
      returns (puts: seq<PutArgs>)
    requires Run(run) && i <= j < |run|
    ensures AsTable(run[j].store, encode) == ApplyAll(AsTable(run[i].store, encode), puts)
    decreases j
  {
    if i == j {
      puts := [];
    } else {
      var first := StoreIsServer(run, i, j - 1, encode);
      var last := NextIsPut(run[j - 1], run[j], encode);
      ApplyAllSplits(AsTable(run[i].store, encode), first, last);
      puts := first + last;
    }
  }

  lemma StoreVersions(run: seq<World>, i: nat)
    requires Run(run) && i < |run|
    ensures run[i].store.currentVersion > 0 && run[i].store.nextVersion > 0
  {
    RunInv(run, i);
  }

  function FieldVersion(store: ConfigStore, field: Field): nat {
    match field
    case CurrentConfig => store.currentVersion
    case NextConfig => store.nextVersion
  }

  lemma VersionsRise(run: seq<World>, i: nat, j: nat, field: Field)
    requires Run(run) && i <= j < |run|
    ensures FieldVersion(run[i].store, field) <= FieldVersion(run[j].store, field)
  {
    StoreVersions(run, i);
    var encode := (config: Config) => "";
    var puts := StoreIsServer(run, i, j, encode);
    VersionsGrow(AsTable(run[i].store, encode), puts, FieldKey(field));
  }

  /** A controller's write names a version the store has, or has had. */
  lemma WritesAreNotEarly(run: seq<World>, i: nat, cas: Cas)
    requires Run(run) && i < |run| && cas in run[i].casSent
    ensures cas.version <= FieldVersion(run[i].store, cas.field)
  {
    RunInv(run, i);
    var w := run[i];
    assert CasOk(w.history, w.store.current.num, w.groups, cas);
  }

  /** Step i executes the write. */
  ghost predicate ExecutedAt(run: seq<World>, i: nat, cas: Cas) {
    i + 1 < |run| && cas in run[i].casSent && run[i + 1].store == Write(run[i].store, cas)
  }

  lemma WritePasses(run: seq<World>, i: nat, cas: Cas)
    requires Run(run) && ExecutedAt(run, i, cas)
    ensures cas.version < FieldVersion(run[i + 1].store, cas.field)
  {
    WritesAreNotEarly(run, i, cas);
  }

  /**
   * A write a controller has sent is settled by its first execution: once accepted it is refused
   * ever after, and once refused it is never accepted.
   */
  lemma WritesSettle(run: seq<World>, i: nat, j: nat, cas: Cas)
    requires Run(run) && ExecutedAt(run, i, cas) && i < j < |run|
    ensures !Accepts(run[j].store, cas)
  {
    WritePasses(run, i, cas);
    VersionsRise(run, i + 1, j, cas.field);
  }
}
