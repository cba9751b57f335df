/** The worker's store as it is updated in place. Every method runs as one step here:
    writes hold their partition exclusively and scans hold it shared. */
module RuntimeStores {
  import opened Common
  import opened Ordered
  import opened StoreModel

  function LiveRecords(records: map<Key, Mutation>, now: nat): map<Key, Mutation> {
    map k | k in records && !records[k].Expired(now) :: records[k]
  }

  function ExpiredKeys(records: map<Key, Mutation>, now: nat): set<Key> {
    set k | k in records && records[k].Expired(now)
  }

  function SweptSoFar(part: PartitionStore, gone: set<Key>, revision: nat): PartitionStore {
    part.(records := part.records - gone, revision := revision)
  }

  lemma SweptOneMore(part: PartitionStore, expired: set<Key>, todo: set<Key>, k: Key)
    requires todo <= expired && k in todo
    ensures part.records - (expired - (todo - {k})) == part.records - (expired - todo) - {k}
  {
  }

  /** What a sweep must not take: tombstones, records without a lifetime, and records whose
      lifetime is not over. */
  predicate Outlives(m: Mutation, now: nat) {
    match m
    case Delete(_) => true
    case Put(record) => record.expirationTimeMs == 0 || now < record.expirationTimeMs
  }

  /** A sweep keeps exactly those, as they are. */
  lemma SweepsKeepExactly(before: PartitionStore, slot: Slot, now: nat, k: Key)
    requires Swept(before, slot, now)
    ensures k in Records(slot) <==> k in before.records && Outlives(before.records[k], now)
    ensures k in Records(slot) ==> Records(slot)[k] == before.records[k]
  {
    var live := LiveRecords(before.records, now);
    assert k in live <==> k in before.records && Outlives(before.records[k], now);
  }

  lemma WithoutExpired(records: map<Key, Mutation>, now: nat)
    ensures records - ExpiredKeys(records, now) == LiveRecords(records, now)
  {
  }

  /** What one expired record's removal leaves of its partition: the journal is not
      told, the revision moves on, and an emptied partition is dropped. */
  function Expunged(part: PartitionStore, next: nat, k: Key): Slot {
    if part.records - {k} == map[] then None
    else Some(part.(records := part.records - {k}, revision := next + 1))
  }

  /** What a sweep leaves of a partition: its live records, with the journal as it was,
      or nothing when no record is live. */
  ghost predicate Swept(before: PartitionStore, slot: Slot, now: nat) {
    var live := LiveRecords(before.records, now);
    if live == map[] then slot.None?
    else
      && slot.Some?
      && slot.value == before.(records := live, revision := slot.value.revision)
      && (ExpiredKeys(before.records, now) == {} ==> slot.value == before)
  }

  class RuntimeStore {
    var cache: map<PartitionId, PartitionStore>
    var nextRevision: nat

    constructor ()
      ensures cache == map[] && nextRevision == 0
    {
      cache, nextRevision := map[], 0;
    }

    function SlotOf(p: PartitionId): Slot
      reads this
    {
      if p in cache then Some(cache[p]) else None
    }

    /** A writer announces itself. */
    method Enter(p: PartitionId)
      requires p in cache
      modifies this`cache
      ensures cache == old(cache)[p := old(cache)[p].(activeWriters := old(cache)[p].activeWriters + 1)]
    {
      cache := cache[p := cache[p].(activeWriters := cache[p].activeWriters + 1)];
    }

    /** A writer's guard is dropped: number, journal, publish, leave. */
    method Leave(p: PartitionId, changed: Option<Key>)
      requires p in cache && cache[p].activeWriters > 0
      modifies this
      ensures nextRevision == old(nextRevision) + 1
      ensures var part := old(cache)[p];
        cache == old(cache)[p := part.(
          changes := if changed.Some? then part.changes[nextRevision := changed.value] else part.changes,
          revision := nextRevision,
          activeWriters := part.activeWriters - 1)]
    {
      nextRevision := nextRevision + 1;
      if changed.Some? {
        cache := cache[p := cache[p].(changes := cache[p].changes[nextRevision := changed.value])];
      }
      cache := cache[p := cache[p].(revision := nextRevision)];
      cache := cache[p := cache[p].(activeWriters := cache[p].activeWriters - 1)];
    }

    /** A put or a deletion, from a client or from a migration. */
    method Write(k: Key, m: Mutation)
      modifies this
      ensures nextRevision == old(nextRevision) + 1
      ensures cache == old(cache)[PartitionOf(k) :=
        Written(old(SlotOf(PartitionOf(k))), old(nextRevision), k, m).value]
    {
      var p := PartitionOf(k);
      if p !in cache {
        cache := cache[p := EMPTY];
      }
      Enter(p);
      var part := cache[p];
      if k !in part.records || part.records[k].Version() <= m.Version() {
        cache := cache[p := part.(records := part.records[k := m])];
      }
      Leave(p, Some(k));
    }

    method Put(k: Key, record: Record)
      modifies this
      ensures nextRevision == old(nextRevision) + 1
      ensures cache == old(cache)[PartitionOf(k) :=
        Written(old(SlotOf(PartitionOf(k))), old(nextRevision), k, Mutation.Put(record)).value]
    {
      Write(k, Mutation.Put(record));
    }

    method DeleteAt(k: Key, deletionTimeMs: nat)
      modifies this
      ensures nextRevision == old(nextRevision) + 1
      ensures cache == old(cache)[PartitionOf(k) :=
        Written(old(SlotOf(PartitionOf(k))), old(nextRevision), k, Delete(deletionTimeMs)).value]
    {
      Write(k, Delete(deletionTimeMs));
    }

    method StablePartitionRevision(p: PartitionId) returns (r: Option<nat>)
      ensures r == Stable(SlotOf(p))
    {
      if p !in cache {
        return Some(0);
      }
      r := if cache[p].activeWriters == 0 then Some(cache[p].revision) else None;
    }

    method RemovePartitionIfEmpty(p: PartitionId)
      modifies this`cache
      ensures cache == if p in old(cache) && old(cache)[p].records == map[] then old(cache) - {p} else old(cache)
    {
      if p in cache && cache[p].records == map[] {
        cache := cache - {p};
      }
    }

    method RemovePartition(p: PartitionId)
      modifies this`cache
      ensures cache == old(cache) - {p}
    {
      cache := cache - {p};
    }

    /** A read answers a tombstone, a record without a lifetime and one whose lifetime is
        not over, and touches nothing; a record whose lifetime is over it answers as absent
        and removes, and with it the partition it empties. */
    method GetVersioned(k: Key, now: nat) returns (r: Option<Mutation>)
      modifies this
      ensures var records := old(Records(SlotOf(PartitionOf(k))));
        && (k !in records ==> r == None)
        && (k in records && records[k].Delete? ==> r == Some(records[k]))
        && (k in records && records[k].Put? && records[k].record.expirationTimeMs == 0 ==> r == Some(records[k]))
        && (k in records && records[k].Put? && now < records[k].record.expirationTimeMs ==> r == Some(records[k]))
        && (k in records && records[k].Put? && 0 < records[k].record.expirationTimeMs <= now ==> r == None)
      ensures var records := old(Records(SlotOf(PartitionOf(k))));
        if k in records && records[k].Put? && 0 < records[k].record.expirationTimeMs <= now
        then
          && k !in Records(SlotOf(PartitionOf(k))) && Records(SlotOf(PartitionOf(k))) == records - {k}
          && (PartitionOf(k) in cache <==> records - {k} != map[])
          && Changes(SlotOf(PartitionOf(k))) ==
               (if records - {k} == map[] then map[] else old(Changes(SlotOf(PartitionOf(k)))))
        else cache == old(cache) && nextRevision == old(nextRevision)
      ensures r == var records := old(Records(SlotOf(PartitionOf(k))));
        if k in records && !records[k].Expired(now) then Some(records[k]) else None
      ensures var p := PartitionOf(k); var slot := old(SlotOf(p));
        if slot.None? || k !in Records(slot) || !Records(slot)[k].Expired(now)
        then cache == old(cache) && nextRevision == old(nextRevision)
        else && nextRevision == old(nextRevision) + 1
             && cache - {p} == old(cache) - {p}
             && SlotOf(p) == Expunged(slot.value, old(nextRevision), k)
    {
      var p := PartitionOf(k);
      if p !in cache || k !in cache[p].records {
        return None;
      }
      if !cache[p].records[k].Expired(now) {
        return Some(cache[p].records[k]);
      }
      RemoveRecord(p, k);
      RemovePartitionIfEmpty(p);
      r := None;
    }

    method GetPartitionMutations(p: PartitionId, amount: nat, after: Option<Key>) returns (r: seq<(Key, Mutation)>)
      ensures r == RecordPage(SlotOf(p), after, amount)
    {
      PageIsPage(Records(SlotOf(p)).Keys, Bound(after), amount);
      if p !in cache {
        assert Page({}, Bound(after), amount) == [];
        return [];
      }
      var keys := TakeAbove(cache[p].records.Keys, Bound(after), amount);
      r := Entries(cache[p].records, keys);
    }

    method GetPartitionChanges(p: PartitionId, after: nat, amount: nat) returns (r: Option<(nat, seq<(Key, Mutation)>)>)
      ensures r == ChangePage(SlotOf(p), after, amount)
    {
      PageIsPage(Changes(SlotOf(p)).Keys, after, amount);
      if p !in cache {
        assert Page({}, after, amount) == [];
        return None;
      }
      var part := cache[p];
      var revisions := TakeAbove(part.changes.Keys, after, amount);
      if revisions == [] {
        return None;
      }
      r := Some((revisions[|revisions| - 1], Live(part.records, part.changes, revisions)));
    }

    /** Removes journal entries from the front while they are covered. */
    method PrunePartitionChanges(p: PartitionId, through: nat)
      modifies this`cache
      ensures SlotOf(p) == Pruned(old(SlotOf(p)), through)
      ensures cache - {p} == old(cache) - {p}
    {
      if p in cache {
        ghost var before := cache[p].changes;
        var front := NextAbove(cache[p].changes.Keys, -1);
        while front.Some? && front.value <= through
          invariant p in cache && cache[p] == old(cache)[p].(changes := cache[p].changes)
          invariant cache - {p} == old(cache) - {p}
          invariant front == FirstAbove(cache[p].changes.Keys, -1)
          invariant forall r :: r in cache[p].changes ==> r in before && cache[p].changes[r] == before[r]
          invariant forall r :: r in before && through < r ==> r in cache[p].changes
          decreases |cache[p].changes|
        {
          var changes := cache[p].changes - {front.value};
          assert changes.Keys == cache[p].changes.Keys - {front.value};
          assert |changes| < |cache[p].changes|;
          cache := cache[p := cache[p].(changes := changes)];
          front := NextAbove(changes.Keys, -1);
        }
        assert cache[p].changes == PrunedChanges(before, through) by {
          forall r | r in cache[p].changes ensures through < r {
            assert r in cache[p].changes.Keys;
          }
        }
      }
    }

    /** Removes the expired records of one partition, one writer's guard for each. */
    method SweepPartition(p: PartitionId, now: nat) returns (removed: nat)
      requires p in cache
      modifies this
      ensures removed == |ExpiredKeys(old(cache)[p].records, now)|
      ensures nextRevision == old(nextRevision) + removed
      ensures p in cache && cache == old(cache)[p := cache[p]]
      ensures cache[p] == old(cache)[p].(records := LiveRecords(old(cache)[p].records, now), revision := cache[p].revision)
      ensures if removed == 0 then cache == old(cache) else cache[p].revision == nextRevision
    {
      ghost var part := cache[p];
      var todo := ExpiredKeys(cache[p].records, now);
      ghost var expired := todo;
      removed := 0;
      assert part.records - (expired - todo) == part.records;
      while todo != {}
        invariant todo <= expired && removed + |todo| == |expired|
        invariant nextRevision == old(nextRevision) + removed
        invariant cache == old(cache)[p := SweptSoFar(part, expired - todo, if removed == 0 then part.revision else nextRevision)]
        decreases |todo|
      {
        var k :| k in todo;
        SweptOneMore(part, expired, todo, k);
        RemoveRecord(p, k);
        removed := removed + 1;
        todo := todo - {k};
      }
      assert expired - todo == expired;
      WithoutExpired(part.records, now);
    }

    /** Removes one record under a writer's guard of its own, unjournaled. */
    method RemoveRecord(p: PartitionId, k: Key)
      requires p in cache
      modifies this
      ensures nextRevision == old(nextRevision) + 1
      ensures cache == old(cache)[p := old(cache)[p].(records := old(cache)[p].records - {k}, revision := nextRevision)]
    {
      Enter(p);
      cache := cache[p := cache[p].(records := cache[p].records - {k})];
      Leave(p, None);
    }

    /** ... and drops the partition when no record is left. */
    method CleanPartition(p: PartitionId, now: nat) returns (removed: nat)
      requires p in cache
      modifies this
      ensures removed == |ExpiredKeys(old(cache)[p].records, now)|
      ensures nextRevision == old(nextRevision) + removed
      ensures Swept(old(cache)[p], SlotOf(p), now)
      ensures cache.Keys <= old(cache).Keys && forall q :: q != p ==> SlotOf(q) == old(SlotOf(q))
    {
      removed := SweepPartition(p, now);
      RemovePartitionIfEmpty(p);
    }

    /** Sweeps every partition; one left without records is dropped. */
    method SweepAll(now: nat) returns (removed: nat)
      modifies this
      ensures nextRevision == old(nextRevision) + removed
      ensures cache.Keys <= old(cache).Keys
      ensures forall p :: p in old(cache) ==> Swept(old(cache)[p], SlotOf(p), now)
      ensures removed == 0 <==> forall p :: p in old(cache) ==> ExpiredKeys(old(cache)[p].records, now) == {}
    {
      var todo := cache.Keys;
      removed := 0;
      while todo != {}
        invariant todo <= old(cache).Keys && cache.Keys <= old(cache).Keys
        invariant nextRevision == old(nextRevision) + removed
        invariant forall p :: p in todo ==> SlotOf(p) == Some(old(cache)[p])
        invariant forall p :: p in old(cache) && p !in todo ==> Swept(old(cache)[p], SlotOf(p), now)
        invariant removed == 0 <==> forall p :: p in old(cache) && p !in todo ==> ExpiredKeys(old(cache)[p].records, now) == {}
        decreases |todo|
      {
        var p :| p in todo;
        assert p in cache;
        var count := CleanPartition(p, now);
        removed := removed + count;
        todo := todo - {p};
      }
    }

    /** Removes every record whose lifetime is over, and no other: tombstones, records
        without a lifetime and records whose lifetime is not over stay as they are. */
    method RemoveExpired(now: nat) returns (removed: nat)
      modifies this
      ensures nextRevision == old(nextRevision) + removed
      ensures cache.Keys <= old(cache).Keys
      ensures forall p :: p in old(cache) ==> Swept(old(cache)[p], SlotOf(p), now)
      ensures removed == 0 <==> forall p :: p in old(cache) ==> ExpiredKeys(old(cache)[p].records, now) == {}
      ensures forall p, k :: p in old(cache) ==>
        (k in Records(SlotOf(p)) <==> k in old(cache)[p].records && Outlives(old(cache)[p].records[k], now))
      ensures forall p, k :: p in old(cache) && k in Records(SlotOf(p)) ==> Records(SlotOf(p))[k] == old(cache)[p].records[k]
      ensures forall p :: p in cache ==> cache[p].records != map[] && cache[p].changes == old(cache)[p].changes
    {
      removed := SweepAll(now);
      forall p, k | p in old(cache)
        ensures k in Records(SlotOf(p)) <==> k in old(cache)[p].records && Outlives(old(cache)[p].records[k], now)
        ensures k in Records(SlotOf(p)) ==> Records(SlotOf(p))[k] == old(cache)[p].records[k]
      {
        SweepsKeepExactly(old(cache)[p], SlotOf(p), now, k);
      }
      forall p | p in cache ensures cache[p].records != map[] && cache[p].changes == old(cache)[p].changes {
        assert Swept(old(cache)[p], SlotOf(p), now);
      }
    }
  }
}
