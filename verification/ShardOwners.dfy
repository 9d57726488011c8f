/**
 * The sequence of shard assignments the configurations go through, and the configuration number
 * each group should have recorded for a shard once all configurations up to `n` are in force.
 */
module ShardOwners {
  import opened ShardGroup

  type Assignment = a: seq<Gid> | |a| == NSHARDS witness seq(NSHARDS, _ => GID1)

  /** history[n] is configuration n; numbers 0 and 1 stand for the initial one. */
  type History = h: seq<Assignment> | |h| >= 2 witness [seq(NSHARDS, _ => GID1), seq(NSHARDS, _ => GID1)]

  predicate Moves(h: History, n: nat, s: Shard)
    requires 1 <= n < |h|
  {
    h[n - 1][s] != h[n][s]
  }

  /** The last configuration up to n that moved the shard into or out of the group. */
  function LastMove(h: History, n: nat, g: Gid, s: Shard): nat
    requires n < |h|
  {
    if n <= 1 then (if g == GID1 then 1 else 0)
    else if Moves(h, n, s) && (g == h[n - 1][s] || g == h[n][s]) then n
    else LastMove(h, n - 1, g, s)
  }

  lemma {:induction false} LastMoveBounds(h: History, n: nat, g: Gid, s: Shard)
    requires 1 <= n < |h|
    ensures LastMove(h, n, g, s) <= n
  {
    if n > 1 { LastMoveBounds(h, n - 1, g, s); }
  }

  /** After its last move the group keeps the shard, or keeps not having it. */
  lemma {:induction false} OwnerSinceLastMove(h: History, n: nat, b: nat, g: Gid, s: Shard)
    requires 2 <= b <= n < |h| && LastMove(h, n, g, s) <= b
    ensures h[b][s] == g <==> h[n][s] == g
  {
    if b < n {
      OwnerSinceLastMove(h, n - 1, b, g, s);
    }
  }

  /** A group that takes part in move b has recorded it, or a later one. */
  lemma {:induction false} MoverRecorded(h: History, n: nat, b: nat, g: Gid, s: Shard)
    requires 2 <= b <= n < |h| && Moves(h, b, s) && (g == h[b - 1][s] || g == h[b][s])
    ensures LastMove(h, n, g, s) >= b
  {
    if b < n { MoverRecorded(h, n - 1, b, g, s); }
  }

  /** Once the shard has left its owner of b, that owner has recorded a later move. */
  lemma {:induction false} LeftSince(h: History, n: nat, b: nat, s: Shard)
    requires 1 <= b <= n < |h| && h[n][s] != h[b][s]
    ensures LastMove(h, n, h[b][s], s) > b
  {
    if n - 1 >= b && h[n - 1][s] != h[b][s] {
      LeftSince(h, n - 1, b, s);
    } else {
      assert Moves(h, n, s);
    }
  }

  /** If any group other than the owner of b has recorded a later move, so has that owner. */
  lemma {:induction false} OwnerMovedToo(h: History, n: nat, b: nat, g: Gid, s: Shard)
    requires 1 <= b <= n < |h| && g != h[b][s] && LastMove(h, n, g, s) > b
    ensures LastMove(h, n, h[b][s], s) > b
  {
    LastMoveBounds(h, n, g, s);
    if n > 1 && Moves(h, n, s) && (g == h[n - 1][s] || g == h[n][s]) {
      if h[n - 1][s] != h[b][s] { LeftSince(h, n - 1, b, s); }
    } else {
      OwnerMovedToo(h, n - 1, b, g, s);
    }
  }

  lemma {:induction false} LastMovePrefix(h: History, h': History, n: nat, g: Gid, s: Shard)
    requires n < |h| && h <= h'
    ensures LastMove(h', n, g, s) == LastMove(h, n, g, s)
  {
    if n > 1 { LastMovePrefix(h, h', n - 1, g, s); }
  }
}
