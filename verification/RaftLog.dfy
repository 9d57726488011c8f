/** Log entries and logs, as both the compacted log of a server and the uncompacted
    logs of the proofs use them. */
module RaftLog {

  /** What `any` holds in a log entry: nothing for a placeholder, else a client operation
      tagged with the server and the per-server id under which it was submitted. */
  datatype Command = NoCommand | Operation(me: nat, id: nat, request: string)

  datatype Entry = Entry(term: nat, command: Command)

  type Log = seq<Entry>

  /** The entry every log starts with. */
  const ROOT: Entry := Entry(0, NoCommand)

  function LastTerm(log: Log): nat
    requires |log| > 0
  {
    log[|log| - 1].term
  }

  /** The voter's test: is a log ending in (term, index) at least as recent as `log`? */
  predicate AtLeastAsRecent(term: nat, index: nat, log: Log)
    requires |log| > 0
  {
    term > LastTerm(log) || (term == LastTerm(log) && index + 1 >= |log|)
  }

  /** `a` and `b` have at least `m` entries and agree on the first `m`. */
  predicate Agree(a: Log, b: Log, m: nat) {
    m <= |a| && m <= |b| && a[..m] == b[..m]
  }

  predicate NotAfter(log: Log, i: nat, j: nat)
    requires i < |log| && j < |log|
  {
    log[i].term <= log[j].term
  }

  ghost predicate Sorted(log: Log) {
    forall i: nat, j: nat :: i < j < |log| ==> NotAfter(log, i, j)
  }

  lemma AgreeShorter(a: Log, b: Log, m: nat, k: nat)
    requires Agree(a, b, m) && k <= m
    ensures Agree(a, b, k)
  {
    assert a[..k] == a[..m][..k];
    assert b[..k] == b[..m][..k];
  }

  lemma AgreeAt(a: Log, b: Log, m: nat, i: nat)
    requires Agree(a, b, m) && i < m
    ensures a[i] == b[i]
  {
    assert a[i] == a[..m][i];
    assert b[i] == b[..m][i];
  }

  lemma DisagreeAt(a: Log, b: Log, m: nat, i: nat)
    requires i < m <= |a| && m <= |b| && a[i] != b[i]
    ensures !Agree(a, b, m)
  {
    assert a[..m][i] == a[i];
    assert b[..m][i] == b[i];
  }

  lemma AgreeChain(a: Log, b: Log, c: Log, m: nat, k: nat)
    requires Agree(a, b, m) && Agree(b, c, k)
    ensures Agree(a, c, if m < k then m else k)
  {
    var p := if m < k then m else k;
    AgreeShorter(a, b, m, p);
    AgreeShorter(b, c, k, p);
  }

  lemma AgreeGrown(a: Log, b: Log, b': Log, m: nat)
    requires Agree(a, b, m) && b <= b'
    ensures Agree(a, b', m)
  {
    assert b[..m] == b'[..m];
  }

  lemma SortedPrefix(log: Log, m: nat)
    requires Sorted(log) && m <= |log|
    ensures Sorted(log[..m])
  {
    forall i: nat, j: nat | i < j < m ensures NotAfter(log[..m], i, j) { assert NotAfter(log, i, j); }
  }

  function Max(a: nat, b: nat): nat { if a < b then b else a }

  function Min(a: nat, b: nat): nat { if a < b then a else b }
}
