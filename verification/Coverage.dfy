/** What a recipient is owed: for every mutation stored at the sender, either the
    recipient has applied one at least as new, or the journal still names its key
    above the revision the sender will resume from. */
module Coverage {
  import opened Common
  import opened StoreModel
  import opened SyncModel

  /** The journal names `k` above revision `r`. */
  ghost predicate Journaled(slot: Slot, k: Key, r: nat) {
    exists rev :: rev in Changes(slot) && r < rev && Changes(slot)[rev] == k
  }

  /** `high` maps each key to the newest version the recipient was ever sent and applied. */
  ghost predicate Applied(high: map<Key, nat>, k: Key, version: nat) {
    k in high && version <= high[k]
  }

  ghost predicate Held(slot: Slot, high: map<Key, nat>, k: Key, r: nat)
    requires k in Records(slot)
  {
    Journaled(slot, k, r) || Applied(high, k, Records(slot)[k].Version())
  }

  ghost predicate HeldUpTo(slot: Slot, high: map<Key, nat>, bound: int, r: nat) {
    forall k :: k in Records(slot) && k <= bound ==> Held(slot, high, k, r)
  }

  ghost predicate Settled(slot: Slot, high: map<Key, nat>, r: nat) {
    forall k :: k in Records(slot) ==> Held(slot, high, k, r)
  }

  /** Applying `batch` would settle every stored key up to the batch's greatest. */
  ghost predicate Covers(slot: Slot, high: map<Key, nat>, r: nat, batch: seq<Wire>) {
    && batch != []
    && forall k :: k in Records(slot) && k <= MaxKey(batch) ==>
         Held(slot, high, k, r) || ToWire(k, Records(slot)[k]) in batch
  }

  /** Applying `batch` would settle every stored key. */
  ghost predicate Carries(slot: Slot, high: map<Key, nat>, r: nat, batch: seq<Wire>) {
    forall k :: k in Records(slot) ==>
      Held(slot, high, k, r) || ToWire(k, Records(slot)[k]) in batch
  }

  /** The recipient has applied a mutation at least as new as each of `seen`. */
  ghost predicate Dominates(high: map<Key, nat>, seen: map<Key, Mutation>) {
    forall k :: k in seen ==> Applied(high, k, seen[k].Version())
  }

  /** How anything but the migration itself may change a partition: every key that
      is new or different is journaled above the old revision counter, and no
      journal entry above `floor` of a stored key disappears. */
  ghost predicate Follows(slot: Slot, next: nat, slot': Slot, next': nat, floor: nat) {
    && next <= next'
    && (forall k :: k in Records(slot') ==>
          (k in Records(slot) && Records(slot')[k] == Records(slot)[k]) || Journaled(slot', k, next))
    && (forall rev :: rev in Changes(slot) && floor < rev && Changes(slot)[rev] in Records(slot') ==>
          rev in Changes(slot') && Changes(slot')[rev] == Changes(slot)[rev])
  }

  ghost predicate Grows(high: map<Key, nat>, high': map<Key, nat>) {
    forall k :: k in high ==> k in high' && high[k] <= high'[k]
  }

  lemma HeldFollows(slot: Slot, next: nat, slot': Slot, next': nat, floor: nat, high: map<Key, nat>, k: Key, r: nat)
    requires Follows(slot, next, slot', next', floor) && floor <= r <= next
    requires k in Records(slot')
    requires k in Records(slot) && Records(slot')[k] == Records(slot)[k] ==> Held(slot, high, k, r)
    ensures Held(slot', high, k, r)
  {
    if k in Records(slot) && Records(slot')[k] == Records(slot)[k] {
      if Journaled(slot, k, r) {
        var rev :| rev in Changes(slot) && r < rev && Changes(slot)[rev] == k;
        assert rev in Changes(slot') && Changes(slot')[rev] == k;
      }
    } else {
      var rev :| rev in Changes(slot') && next < rev && Changes(slot')[rev] == k;
      assert Journaled(slot', k, r);
    }
  }

  lemma HeldUpToFollows(slot: Slot, next: nat, slot': Slot, next': nat, floor: nat, high: map<Key, nat>, bound: int, r: nat)
    requires Follows(slot, next, slot', next', floor) && floor <= r <= next
    requires HeldUpTo(slot, high, bound, r)
    ensures HeldUpTo(slot', high, bound, r)
  {
    forall k | k in Records(slot') && k <= bound ensures Held(slot', high, k, r) {
      HeldFollows(slot, next, slot', next', floor, high, k, r);
    }
  }

  lemma SettledFollows(slot: Slot, next: nat, slot': Slot, next': nat, floor: nat, high: map<Key, nat>, r: nat)
    requires Follows(slot, next, slot', next', floor) && floor <= r <= next
    requires Settled(slot, high, r)
    ensures Settled(slot', high, r)
  {
    forall k | k in Records(slot') ensures Held(slot', high, k, r) {
      HeldFollows(slot, next, slot', next', floor, high, k, r);
    }
  }

  lemma CoversFollows(slot: Slot, next: nat, slot': Slot, next': nat, floor: nat, high: map<Key, nat>, r: nat, batch: seq<Wire>)
    requires Follows(slot, next, slot', next', floor) && floor <= r <= next
    requires Covers(slot, high, r, batch)
    ensures Covers(slot', high, r, batch)
  {
    forall k | k in Records(slot') && k <= MaxKey(batch)
      ensures Held(slot', high, k, r) || ToWire(k, Records(slot')[k]) in batch
    {
      if !(k in Records(slot) && Records(slot')[k] == Records(slot)[k] && ToWire(k, Records(slot)[k]) in batch) {
        HeldFollows(slot, next, slot', next', floor, high, k, r);
      }
    }
  }

  lemma CarriesFollows(slot: Slot, next: nat, slot': Slot, next': nat, floor: nat, high: map<Key, nat>, r: nat, batch: seq<Wire>)
    requires Follows(slot, next, slot', next', floor) && floor <= r <= next
    requires Carries(slot, high, r, batch)
    ensures Carries(slot', high, r, batch)
  {
    forall k | k in Records(slot')
      ensures Held(slot', high, k, r) || ToWire(k, Records(slot')[k]) in batch
    {
      if !(k in Records(slot) && Records(slot')[k] == Records(slot)[k] && ToWire(k, Records(slot)[k]) in batch) {
        HeldFollows(slot, next, slot', next', floor, high, k, r);
      }
    }
  }

  /** A batch the recipient has applied leaves nothing to wait for. */
  ghost predicate BatchApplied(high: map<Key, nat>, batch: seq<Wire>) {
    forall i :: 0 <= i < |batch| ==> Applied(high, batch[i].key, batch[i].creationTimeMs)
  }

  lemma AppliedSettles(slot: Slot, high: map<Key, nat>, r: nat, batch: seq<Wire>, k: Key)
    requires BatchApplied(high, batch) && k in Records(slot)
    requires Held(slot, high, k, r) || ToWire(k, Records(slot)[k]) in batch
    ensures Held(slot, high, k, r)
  {
    if ToWire(k, Records(slot)[k]) in batch {
      var i :| 0 <= i < |batch| && batch[i] == ToWire(k, Records(slot)[k]);
      assert Applied(high, batch[i].key, batch[i].creationTimeMs);
    }
  }

  /** The next page after a settled key covers everything up to its own last key. */
  lemma PageCovers(slot: Slot, high: map<Key, nat>, r: nat, after: Option<Key>)
    requires HeldUpTo(slot, high, Bound(after), r)
    requires RecordPage(slot, after, SYNC_BATCH_SIZE) != []
    ensures var page := RecordPage(slot, after, SYNC_BATCH_SIZE);
      && Covers(slot, high, r, ToWires(page))
      && MaxKey(ToWires(page)) == page[|page| - 1].0
  {
    var page := RecordPage(slot, after, SYNC_BATCH_SIZE);
    RecordPageExact(slot, after, SYNC_BATCH_SIZE);
    PageLast(slot, after);
    WiresAre(page);
    forall k | k in Records(slot) && k <= MaxKey(ToWires(page))
      ensures Held(slot, high, k, r) || ToWire(k, Records(slot)[k]) in ToWires(page)
    {
      if Bound(after) < k {
        assert (k, Records(slot)[k]) in page;
      }
    }
  }

  lemma LastIsMax(page: seq<(Key, Mutation)>)
    requires page != [] && KeysAscend(page)
    ensures MaxKey(ToWires(page)) == page[|page| - 1].0
  {
    var batch := ToWires(page);
    WiresAre(page);
    MaxKeyIsGreatest(batch);
    var i :| 0 <= i < |batch| && batch[i].key == MaxKey(batch);
    assert batch[|page| - 1].key == page[|page| - 1].0;
    assert batch[i].key == page[i].0;
  }

  lemma PageLast(slot: Slot, after: Option<Key>)
    requires RecordPage(slot, after, SYNC_BATCH_SIZE) != []
    ensures var page := RecordPage(slot, after, SYNC_BATCH_SIZE); MaxKey(ToWires(page)) == page[|page| - 1].0
  {
    RecordPageAscends(slot, after, SYNC_BATCH_SIZE);
    LastIsMax(RecordPage(slot, after, SYNC_BATCH_SIZE));
  }

  /** An empty page after a settled key leaves nothing unsettled. */
  lemma NoPageSettles(slot: Slot, high: map<Key, nat>, r: nat, after: Option<Key>)
    requires HeldUpTo(slot, high, Bound(after), r)
    requires RecordPage(slot, after, SYNC_BATCH_SIZE) == []
    ensures Settled(slot, high, r)
  {
    RecordPageExact(slot, after, SYNC_BATCH_SIZE);
  }

  /** A journal page carries every key that is settled only by the stretch of the
      journal it covers. */
  lemma ChangesCarry(slot: Slot, high: map<Key, nat>, cursor: nat)
    requires Settled(slot, high, cursor)
    requires ChangePage(slot, cursor, SYNC_BATCH_SIZE).Some?
    ensures var (last, live) := ChangePage(slot, cursor, SYNC_BATCH_SIZE).value;
      && Carries(slot, high, last, ToWires(live))
      && (live == [] ==> Settled(slot, high, last))
  {
    var (last, live) := ChangePage(slot, cursor, SYNC_BATCH_SIZE).value;
    WiresAre(live);
    forall k | k in Records(slot)
      ensures Held(slot, high, k, last) || ((k, Records(slot)[k]) in live && ToWire(k, Records(slot)[k]) in ToWires(live))
    {
      if Journaled(slot, k, cursor) && !Journaled(slot, k, last) {
        var rev :| rev in Changes(slot) && cursor < rev && Changes(slot)[rev] == k;
        ChangePageExact(slot, cursor, SYNC_BATCH_SIZE, rev);
      }
    }
  }

  /** A drained journal leaves only what the recipient has applied. */
  lemma DrainedDominates(slot: Slot, high: map<Key, nat>, cursor: nat)
    requires Settled(slot, high, cursor)
    requires ChangePage(slot, cursor, SYNC_BATCH_SIZE).None?
    ensures Dominates(high, Records(slot))
  {
    forall k | k in Records(slot) ensures Applied(high, k, Records(slot)[k].Version()) {
      if Journaled(slot, k, cursor) {
        var rev :| rev in Changes(slot) && cursor < rev && Changes(slot)[rev] == k;
        ChangePageExact(slot, cursor, SYNC_BATCH_SIZE, rev);
      }
    }
  }

  lemma SettledLower(slot: Slot, high: map<Key, nat>, r: nat, lower: nat)
    requires Settled(slot, high, r) && lower <= r
    ensures Settled(slot, high, lower)
  {
    forall k | k in Records(slot) ensures Held(slot, high, k, lower) {
      if Journaled(slot, k, r) {
        var rev :| rev in Changes(slot) && r < rev && Changes(slot)[rev] == k;
        assert Journaled(slot, k, lower);
      }
    }
  }

  lemma CarriesLower(slot: Slot, high: map<Key, nat>, r: nat, lower: nat, batch: seq<Wire>)
    requires Carries(slot, high, r, batch) && lower <= r
    ensures Carries(slot, high, lower, batch)
  {
    forall k | k in Records(slot)
      ensures Held(slot, high, k, lower) || ToWire(k, Records(slot)[k]) in batch
    {
      if Journaled(slot, k, r) {
        var rev :| rev in Changes(slot) && r < rev && Changes(slot)[rev] == k;
        assert Journaled(slot, k, lower);
      }
    }
  }
}
