/**
 * Where each shard is. `h` is the history of assignments, `c` the number of the current
 * configuration; the newest one, |h| - 1, is `c` itself or the configuration being migrated to.
 */
module ShardLayout {
  import opened ShardGroup
  import opened ShardOwners
  import opened ShardWorld

  ghost predicate SoundAt(gs: Groups, g: Gid) {
    Sound(GroupAt(gs, g))
  }

  ghost predicate AllSound(gs: Groups) {
    forall g: Gid {:trigger SoundAt(gs, g)} {:trigger GroupAt(gs, g)} :: SoundAt(gs, g)
  }

  ghost function SlotAt(gs: Groups, g: Gid, s: Shard): Slot
    requires AllSound(gs)
  {
    assert SoundAt(gs, g);
    GroupAt(gs, g).slots[s]
  }

  ghost predicate Numbers(h: History, c: nat) {
    1 <= c < |h| <= c + 2
  }

  /** The configuration being migrated to takes this shard to another group. */
  ghost predicate Moving(h: History, c: nat, s: Shard)
    requires Numbers(h, c)
  {
    |h| == c + 2 && h[c][s] != h[c + 1][s]
  }

  /** The group's view of the shard is what the configurations up to c say. */
  ghost predicate Settled(h: History, c: nat, gs: Groups, g: Gid, s: Shard)
    requires Numbers(h, c) && AllSound(gs)
  {
    && SlotAt(gs, g, s).num == LastMove(h, c, g, s)
    && SlotAt(gs, g, s).status == (if h[c][s] == g then Serving else Absent)
  }

  ghost predicate Installed(h: History, c: nat, gs: Groups, s: Shard)
    requires Numbers(h, c) && AllSound(gs) && Moving(h, c, s)
  {
    SlotAt(gs, h[c + 1][s], s).num == c + 1
  }

  /** Every group is settled, except the two ends of a move under way: frozen, installed, deleted, in that order. */
  ghost predicate SlotInv(h: History, c: nat, gs: Groups, g: Gid, s: Shard)
    requires Numbers(h, c) && AllSound(gs)
  {
    || Settled(h, c, gs, g, s)
    || (Moving(h, c, s) && SlotAt(gs, g, s).num == c + 1 &&
        if g == h[c][s] then
          SlotAt(gs, g, s).status == Frozen || (SlotAt(gs, g, s).status == Absent && Installed(h, c, gs, s))
        else
          g == h[c + 1][s] && SlotAt(gs, g, s).status == Serving && SlotAt(gs, h[c][s], s).num == c + 1)
  }

  ghost predicate Layout(h: History, c: nat, gs: Groups) {
    && Numbers(h, c)
    && AllSound(gs)
    && forall g: Gid, s: Shard {:trigger SlotInv(h, c, gs, g, s)} {:trigger SlotAt(gs, g, s)} :: SlotInv(h, c, gs, g, s)
  }

  /** The group that holds the authoritative copy of the shard. */
  ghost function Host(h: History, c: nat, gs: Groups, s: Shard): Gid
    requires Numbers(h, c) && AllSound(gs)
  {
    if Moving(h, c, s) && Installed(h, c, gs, s) then h[c + 1][s] else h[c][s]
  }

  lemma ServingIsHost(h: History, c: nat, gs: Groups, g: Gid, s: Shard)
    requires Layout(h, c, gs) && SlotAt(gs, g, s).status == Serving
    ensures g == Host(h, c, gs, s)
  {
    assert SlotInv(h, c, gs, g, s);
    if Moving(h, c, s) && g == h[c][s] {
      LastMoveBounds(h, c, g, s);
      LastMoveBounds(h, c, h[c + 1][s], s);
      assert SlotInv(h, c, gs, h[c + 1][s], s);
    }
  }

  /** The host has not dropped the shard. */
  lemma HostHolds(h: History, c: nat, gs: Groups, s: Shard)
    requires Layout(h, c, gs)
    ensures SlotAt(gs, Host(h, c, gs, s), s).status != Absent
  {
    var g := Host(h, c, gs, s);
    assert SlotInv(h, c, gs, g, s);
    if Moving(h, c, s) && Installed(h, c, gs, s) {
      LastMoveBounds(h, c, g, s);
    }
  }

  /** What a group has recorded is never behind the configurations in force. */
  lemma NumAtLeast(h: History, c: nat, gs: Groups, g: Gid, s: Shard)
    requires Layout(h, c, gs)
    ensures LastMove(h, c, g, s) <= SlotAt(gs, g, s).num < |h|
  {
    LastMoveBounds(h, c, g, s);
    assert SlotInv(h, c, gs, g, s);
  }

  // ----- facts that stay true -----

  /** The owner of the shard under configuration b has installed it (or moved on). */
  ghost predicate Arrived(h: History, gs: Groups, b: nat, s: Shard)
    requires AllSound(gs) && b < |h|
  {
    SlotAt(gs, h[b][s], s).num >= b
  }

  /** The group is through with handing the shard over under configuration b. */
  ghost predicate Dropped(gs: Groups, g: Gid, b: nat, s: Shard)
    requires AllSound(gs)
  {
    var slot := SlotAt(gs, g, s);
    slot.num > b || (slot.num == b && slot.status == Absent)
  }

  ghost predicate OnlyFrozen(h: History, c: nat, gs: Groups, s: Shard)
    requires Numbers(h, c) && AllSound(gs)
  {
    && Moving(h, c, s)
    && SlotAt(gs, h[c][s], s).status == Frozen
    && SlotAt(gs, h[c][s], s).num == c + 1
    && !Installed(h, c, gs, s)
  }

  // ----- what a Freeze, an Install and a Delete find -----

  /** A Freeze that takes effect is the start of the move under way. */
  lemma FreezeTakesEffect(h: History, c: nat, gs: Groups, g: Gid, b: nat, s: Shard)
    requires Layout(h, c, gs) && 2 <= b < |h| && g != h[b][s]
    requires SlotAt(gs, g, s).num < b && SlotAt(gs, g, s).status == Serving
    ensures b == c + 1 && Moving(h, c, s) && g == h[c][s]
    ensures !Installed(h, c, gs, s)
  {
    assert SlotInv(h, c, gs, g, s);
    if b <= c {
      OwnerSinceLastMove(h, c, b, g, s);
    } else {
      assert SlotInv(h, c, gs, h[c + 1][s], s);
      LastMoveBounds(h, c, h[c + 1][s], s);
    }
  }

  /** A Freeze that finds its own number recorded: the copy is the live one, or it has arrived. */
  lemma FreezeAgain(h: History, c: nat, gs: Groups, g: Gid, b: nat, s: Shard)
    requires Layout(h, c, gs) && 2 <= b < |h| && g != h[b][s]
    requires SlotAt(gs, g, s).num == b
    ensures Arrived(h, gs, b, s) || (b == c + 1 && OnlyFrozen(h, c, gs, s) && g == h[c][s])
    ensures SlotAt(gs, g, s).status != Serving
  {
    assert SlotInv(h, c, gs, g, s);
    LastMoveBounds(h, c, g, s);
    if b <= c {
      assert Moves(h, b, s) && g == h[b - 1][s] by { RecordedMove(h, c, g, s); }
      MoverRecorded(h, c, b, h[b][s], s);
      NumAtLeast(h, c, gs, h[b][s], s);
      OwnerSinceLastMove(h, c, b, g, s);
    }
  }

  /** What is recorded was a move. */
  lemma {:induction false} RecordedMove(h: History, n: nat, g: Gid, s: Shard)
    requires 1 <= n < |h| && LastMove(h, n, g, s) >= 2
    ensures var b := LastMove(h, n, g, s); b <= n && Moves(h, b, s) && (g == h[b - 1][s] || g == h[b][s])
  {
    if !(Moves(h, n, s) && (g == h[n - 1][s] || g == h[n][s])) { RecordedMove(h, n - 1, g, s); }
  }

  /** A Freeze that comes too late: the shard has long arrived. */
  lemma FreezeLate(h: History, c: nat, gs: Groups, g: Gid, b: nat, s: Shard)
    requires Layout(h, c, gs) && 2 <= b < |h| && g != h[b][s]
    requires SlotAt(gs, g, s).num > b
    ensures Arrived(h, gs, b, s)
  {
    NumAtLeast(h, c, gs, g, s);
    NumAtLeast(h, c, gs, h[b][s], s);
    assert SlotInv(h, c, gs, g, s);
    if Settled(h, c, gs, g, s) {
      LastMoveBounds(h, c, g, s);
      OwnerMovedToo(h, c, b, g, s);
    } else if h[c][s] != h[b][s] {
      LeftSince(h, c, b, s);
    } else {
      assert SlotInv(h, c, gs, h[c][s], s);
    }
  }

  /** The group that a shard has arrived at under b, and that recorded nothing later, serves it. */
  lemma ArrivedServes(h: History, c: nat, gs: Groups, b: nat, s: Shard)
    requires Layout(h, c, gs) && 2 <= b < |h| && SlotAt(gs, h[b][s], s).num == b
    ensures SlotAt(gs, h[b][s], s).status == Serving
  {
    var g := h[b][s];
    assert SlotInv(h, c, gs, g, s);
    LastMoveBounds(h, c, g, s);
    if b <= c { OwnerSinceLastMove(h, c, b, g, s); }
  }

  /** A group still holding a frozen copy is the source of the move under way. */
  lemma FrozenIsSource(h: History, c: nat, gs: Groups, g: Gid, s: Shard)
    requires Layout(h, c, gs) && SlotAt(gs, g, s).status == Frozen
    ensures Moving(h, c, s) && g == h[c][s] && SlotAt(gs, g, s).num == c + 1
  {
    assert SlotInv(h, c, gs, g, s);
  }

  /** The source of move b has recorded b once the shard has arrived, and before that still serves it. */
  lemma SourceStands(h: History, c: nat, gs: Groups, b: nat, s: Shard)
    requires Layout(h, c, gs) && 2 <= b < |h| && Moves(h, b, s)
    ensures Arrived(h, gs, b, s) ==> SlotAt(gs, h[b - 1][s], s).num >= b
    ensures SlotAt(gs, h[b - 1][s], s).num < b ==> SlotAt(gs, h[b - 1][s], s).status == Serving
  {
    var g := h[b - 1][s];
    NumAtLeast(h, c, gs, g, s);
    assert SlotInv(h, c, gs, g, s);
    if b <= c {
      MoverRecorded(h, c, b, g, s);
    } else {
      assert SlotInv(h, c, gs, h[b][s], s);
      LastMoveBounds(h, c, h[b][s], s);
    }
  }

  // ----- one slot changes -----

  /** Group g turns into g', which differs in at most shard s (and in its records). */
  ghost predicate Touches(gs: Groups, gs': Groups, g: Gid, s: Shard) {
    && AllSound(gs) && AllSound(gs')
    && forall e: Gid, t: Shard {:trigger SlotAt(gs', e, t)} :: (e, t) != (g, s) ==> SlotAt(gs', e, t) == SlotAt(gs, e, t)
  }

  lemma FreezeLayout(h: History, c: nat, gs: Groups, gs': Groups, s: Shard)
    requires Layout(h, c, gs) && Moving(h, c, s) && !Installed(h, c, gs, s)
    requires Touches(gs, gs', h[c][s], s)
    requires SlotAt(gs', h[c][s], s).num == c + 1 && SlotAt(gs', h[c][s], s).status == Frozen
    ensures Layout(h, c, gs') && OnlyFrozen(h, c, gs', s)
  {
    forall e: Gid, t: Shard ensures SlotInv(h, c, gs', e, t) {
      OneSlot(h, c, gs, gs', h[c][s], s, e, t);
    }
  }

  lemma InstallLayout(h: History, c: nat, gs: Groups, gs': Groups, s: Shard)
    requires Layout(h, c, gs) && OnlyFrozen(h, c, gs, s)
    requires Touches(gs, gs', h[c + 1][s], s)
    requires SlotAt(gs', h[c + 1][s], s).num == c + 1 && SlotAt(gs', h[c + 1][s], s).status == Serving
    ensures Layout(h, c, gs') && Host(h, c, gs', s) == h[c + 1][s]
  {
    forall e: Gid, t: Shard ensures SlotInv(h, c, gs', e, t) {
      OneSlot(h, c, gs, gs', h[c + 1][s], s, e, t);
    }
  }

  lemma DeleteLayout(h: History, c: nat, gs: Groups, gs': Groups, s: Shard)
    requires Layout(h, c, gs) && Moving(h, c, s) && Installed(h, c, gs, s)
    requires Touches(gs, gs', h[c][s], s)
    requires SlotAt(gs', h[c][s], s).num == c + 1 && SlotAt(gs', h[c][s], s).status == Absent
    ensures Layout(h, c, gs')
  {
    forall e: Gid, t: Shard ensures SlotInv(h, c, gs', e, t) {
      OneSlot(h, c, gs, gs', h[c][s], s, e, t);
    }
  }

  /** A slot whose number and status stay. */
  lemma SameLayout(h: History, c: nat, gs: Groups, gs': Groups, g: Gid, s: Shard)
    requires Layout(h, c, gs) && Touches(gs, gs', g, s)
    requires SlotAt(gs', g, s).num == SlotAt(gs, g, s).num && SlotAt(gs', g, s).status == SlotAt(gs, g, s).status
    ensures Layout(h, c, gs')
    ensures forall t: Shard :: Host(h, c, gs', t) == Host(h, c, gs, t)
  {
    forall e: Gid, t: Shard ensures SlotInv(h, c, gs', e, t) {
      OneSlot(h, c, gs, gs', g, s, e, t);
    }
    forall t: Shard ensures Host(h, c, gs', t) == Host(h, c, gs, t) {
      if Moving(h, c, t) {
        assert SlotAt(gs', h[c + 1][t], t).num == SlotAt(gs, h[c + 1][t], t).num;
      }
    }
  }

  /** Slots that the change does not reach. */
  lemma OneSlot(h: History, c: nat, gs: Groups, gs': Groups, g: Gid, s: Shard, e: Gid, t: Shard)
    requires Layout(h, c, gs) && Touches(gs, gs', g, s)
    ensures SlotInv(h, c, gs, e, t) && SlotInv(h, c, gs, h[c][t], t)
    ensures t != s ==> SlotInv(h, c, gs', e, t)
    ensures (e, t) != (g, s) ==> SlotAt(gs', e, t) == SlotAt(gs, e, t)
    ensures LastMove(h, c, e, t) <= c
  {
    LastMoveBounds(h, c, e, t);
    assert SlotInv(h, c, gs, e, t) && SlotInv(h, c, gs, h[c][t], t);
  }

  // ----- the configurations advance -----

  lemma ProposeLayout(h: History, c: nat, gs: Groups, a: Assignment)
    requires Layout(h, c, gs) && |h| == c + 1
    ensures Layout(h + [a], c, gs)
    ensures forall s: Shard :: Host(h + [a], c, gs, s) == Host(h, c, gs, s)
  {
    var h': History := h + [a];
    forall e: Gid, t: Shard ensures SlotInv(h', c, gs, e, t) {
      assert SlotInv(h, c, gs, e, t);
      LastMovePrefix(h, h', c, e, t);
    }
    forall s: Shard ensures Host(h', c, gs, s) == Host(h, c, gs, s) {
      assert SlotInv(h, c, gs, a[s], s);
      LastMoveBounds(h, c, a[s], s);
    }
  }

  lemma CommitLayout(h: History, c: nat, gs: Groups)
    requires Layout(h, c, gs) && |h| == c + 2
    requires forall s: Shard :: Moving(h, c, s) ==> Dropped(gs, h[c][s], c + 1, s)
    ensures Layout(h, c + 1, gs)
    ensures forall s: Shard :: Host(h, c + 1, gs, s) == Host(h, c, gs, s)
  {
    var c': nat := c + 1;
    forall e: Gid, t: Shard ensures SlotInv(h, c', gs, e, t) {
      assert SlotInv(h, c, gs, e, t) && SlotInv(h, c, gs, h[c][t], t) && SlotInv(h, c, gs, h[c + 1][t], t);
      LastMoveBounds(h, c, h[c][t], t);
      LastMoveBounds(h, c, h[c + 1][t], t);
    }
    forall s: Shard ensures Host(h, c + 1, gs, s) == Host(h, c, gs, s) {
      if Moving(h, c, s) {
        assert SlotInv(h, c, gs, h[c][s], s);
        LastMoveBounds(h, c, h[c][s], s);
      }
    }
  }
}
