/** The value of a worker's in-memory store: last-write-wins records with
    tombstones, a journal of changed keys, and a store-wide revision counter. */
module StoreModel {
  import opened Common
  import opened Ordered

  newtype Byte = b: int | 0 <= b < 256

  datatype Record = Record(expirationTimeMs: nat, creationTimeMs: nat, value: seq<Byte>)

  datatype Mutation = Put(record: Record) | Delete(deletionTimeMs: nat) {

    function Version(): nat {
      match this
      case Put(record) => record.creationTimeMs
      case Delete(time) => time
    }

    /** Tombstones never expire, and neither does an expiration time of zero. */
    predicate Expired(now: nat) {
      Put? && record.expirationTimeMs != 0 && record.expirationTimeMs <= now
    }
  }

  datatype PartitionStore = PartitionStore(
    records: map<Key, Mutation>,
    changes: map<nat, Key>,
    activeWriters: nat,
    revision: nat)

  /** What the cache holds for one partition identifier. */
  type Slot = Option<PartitionStore>

  const EMPTY := PartitionStore(map[], map[], 0, 0)

  function Opened(slot: Slot): PartitionStore {
    if slot.Some? then slot.value else EMPTY
  }

  function Records(slot: Slot): map<Key, Mutation> {
    Opened(slot).records
  }

  function Changes(slot: Slot): map<nat, Key> {
    Opened(slot).changes
  }

  /** Conditional insertion: an existing mutation survives only a strictly older one. */
  function Merge(records: map<Key, Mutation>, k: Key, m: Mutation): map<Key, Mutation> {
    if k in records && m.Version() < records[k].Version() then records else records[k := m]
  }

  /** One complete client or migration write, numbered `next + 1` and journaled. */
  function Written(slot: Slot, next: nat, k: Key, m: Mutation): Slot {
    var part := Opened(slot);
    Some(part.(records := Merge(part.records, k, m),
               changes := part.changes[next + 1 := k],
               revision := next + 1))
  }

  /** The revision a partition is stable at, unless a writer is in flight. */
  function Stable(slot: Slot): Option<nat> {
    if slot.None? then Some(0)
    else if slot.value.activeWriters == 0 then Some(slot.value.revision)
    else None
  }

  function PrunedChanges(changes: map<nat, Key>, through: nat): map<nat, Key> {
    map r | r in changes && through < r :: changes[r]
  }

  function Pruned(slot: Slot, through: nat): Slot {
    if slot.None? then None
    else Some(slot.value.(changes := PrunedChanges(slot.value.changes, through)))
  }

  function Bound(after: Option<Key>): int {
    if after.Some? then after.value else -1
  }

  function Entries(records: map<Key, Mutation>, keys: seq<Key>): (r: seq<(Key, Mutation)>)
    requires forall k :: k in keys ==> k in records
    ensures |r| == |keys|
    ensures forall k :: k in keys ==> (k, records[k]) in r
  {
    var r := seq(|keys|, i requires 0 <= i < |keys| => (keys[i], records[keys[i]]));
    assert forall i :: 0 <= i < |keys| ==> r[i] == (keys[i], records[keys[i]]);
    r
  }

  /** The page of records after a key cursor. */
  ghost function RecordPage(slot: Slot, after: Option<Key>, amount: nat): seq<(Key, Mutation)> {
    var records := Records(slot);
    PageIsPage(records.Keys, Bound(after), amount);
    Entries(records, Page(records.Keys, Bound(after), amount))
  }

  /** The mutations now stored under the keys journaled at `revisions`; keys that
      are no longer stored are passed over. */
  function Live(records: map<Key, Mutation>, changes: map<nat, Key>, revisions: seq<nat>): seq<(Key, Mutation)>
    requires forall r :: r in revisions ==> r in changes
  {
    if revisions == [] then []
    else
      var k := changes[revisions[0]];
      (if k in records then [(k, records[k])] else []) + Live(records, changes, revisions[1..])
  }

  /** The journal page after a revision cursor: its last revision and what is
      still stored of it, or nothing when the journal is exhausted. */
  ghost function ChangePage(slot: Slot, after: nat, amount: nat): Option<(nat, seq<(Key, Mutation)>)> {
    var changes := Changes(slot);
    var revisions := Page(changes.Keys, after, amount);
    PageIsPage(changes.Keys, after, amount);
    if revisions == [] then None
    else Some((revisions[|revisions| - 1], Live(Records(slot), changes, revisions)))
  }

  lemma {:induction false} LiveHasAll(
      records: map<Key, Mutation>, changes: map<nat, Key>, revisions: seq<nat>, r: nat)
    requires forall s :: s in revisions ==> s in changes
    requires r in revisions && changes[r] in records
    ensures (changes[r], records[changes[r]]) in Live(records, changes, revisions)
  {
    if revisions[0] != r {
      LiveHasAll(records, changes, revisions[1..], r);
    }
  }

  lemma {:induction false} LiveIsStored(
      records: map<Key, Mutation>, changes: map<nat, Key>, revisions: seq<nat>, e: (Key, Mutation))
    requires forall s :: s in revisions ==> s in changes
    requires e in Live(records, changes, revisions)
    ensures e.0 in records && records[e.0] == e.1
    ensures exists r :: r in revisions && changes[r] == e.0
  {
    var k := changes[revisions[0]];
    var rest := Live(records, changes, revisions[1..]);
    if e in rest {
      LiveIsStored(records, changes, revisions[1..], e);
      var r :| r in revisions[1..] && changes[r] == e.0;
      assert r in revisions;
    } else {
      assert revisions[0] in revisions && changes[revisions[0]] == e.0;
    }
  }

  ghost predicate KeysAscend(page: seq<(Key, Mutation)>) {
    forall i, j :: 0 <= i < j < |page| ==> page[i].0 < page[j].0
  }

  lemma RecordPageAscends(slot: Slot, after: Option<Key>, amount: nat)
    ensures KeysAscend(RecordPage(slot, after, amount))
  {
    PageIsPage(Records(slot).Keys, Bound(after), amount);
  }

  /** A record page holds exactly the stored keys of the stretch it covers. */
  lemma RecordPageExact(slot: Slot, after: Option<Key>, amount: nat)
    requires 0 < amount
    ensures var page := RecordPage(slot, after, amount);
      && (forall i :: 0 <= i < |page| ==>
            page[i].0 in Records(slot) && Records(slot)[page[i].0] == page[i].1 && Bound(after) < page[i].0)
      && (page == [] ==> forall k :: k in Records(slot) ==> k <= Bound(after))
      && (page != [] ==> forall k :: k in Records(slot) && Bound(after) < k <= page[|page| - 1].0 ==>
            (k, Records(slot)[k]) in page)
      && KeysAscend(page)
      && |page| <= amount
      && (|page| < amount ==> forall k :: k in Records(slot) && Bound(after) < k ==> (k, Records(slot)[k]) in page)
  {
    var records := Records(slot);
    PageIsPage(records.Keys, Bound(after), amount);
    var keys := Page(records.Keys, Bound(after), amount);
    var page := RecordPage(slot, after, amount);
    forall k | k in records && Bound(after) < k && Reaches(keys, amount, k) ensures (k, records[k]) in page {
      assert k in records.Keys;
      assert k in keys;
    }
  }

  /** A journal page accounts for every journaled key up to its last revision. */
  lemma ChangePageExact(slot: Slot, after: nat, amount: nat, r: nat)
    requires 0 < amount
    requires r in Changes(slot) && after < r
    ensures var page := ChangePage(slot, after, amount);
      && page.Some?
      && after < page.value.0 && page.value.0 in Changes(slot)
      && (r <= page.value.0 && Changes(slot)[r] in Records(slot) ==>
            (Changes(slot)[r], Records(slot)[Changes(slot)[r]]) in page.value.1)
  {
    var changes := Changes(slot);
    PageIsPage(changes.Keys, after, amount);
    var revisions := Page(changes.Keys, after, amount);
    assert r in changes.Keys;
    if revisions == [] {
      assert Reaches(revisions, amount, r);
    }
    assert revisions[|revisions| - 1] in revisions;
    if r <= revisions[|revisions| - 1] && changes[r] in Records(slot) {
      assert Reaches(revisions, amount, r);
      LiveHasAll(Records(slot), changes, revisions, r);
    }
  }

  /** Everything in a journal page is what is stored now, under a journaled key. */
  lemma ChangePageStored(slot: Slot, after: nat, amount: nat, e: (Key, Mutation))
    requires ChangePage(slot, after, amount).Some? && e in ChangePage(slot, after, amount).value.1
    ensures e.0 in Records(slot) && Records(slot)[e.0] == e.1
  {
    PageIsPage(Changes(slot).Keys, after, amount);
    LiveIsStored(Records(slot), Changes(slot), Page(Changes(slot).Keys, after, amount), e);
  }

  lemma {:induction false} LiveIsBounded(records: map<Key, Mutation>, changes: map<nat, Key>, revisions: seq<nat>)
    requires forall r :: r in revisions ==> r in changes
    ensures |Live(records, changes, revisions)| <= |revisions|
  {
    if revisions != [] {
      LiveIsBounded(records, changes, revisions[1..]);
    }
  }

  ghost predicate IsLastOfPage(slot: Slot, after: nat, amount: nat, revisions: seq<nat>, last: nat) {
    IsPage(Changes(slot).Keys, after, amount, revisions) && revisions != [] && last == revisions[|revisions| - 1]
  }

  /** A journal page looks at no more entries than asked for, and at all there are if that
      is fewer. */
  lemma ChangePageBounded(slot: Slot, after: nat, amount: nat)
    requires ChangePage(slot, after, amount).Some?
    ensures |ChangePage(slot, after, amount).value.1| <= amount
    ensures exists revisions :: IsLastOfPage(slot, after, amount, revisions, ChangePage(slot, after, amount).value.0)
  {
    var revisions := Page(Changes(slot).Keys, after, amount);
    PageIsPage(Changes(slot).Keys, after, amount);
    LiveIsBounded(Records(slot), Changes(slot), revisions);
    assert IsLastOfPage(slot, after, amount, revisions, ChangePage(slot, after, amount).value.0);
  }

  lemma ChangePageLast(slot: Slot, after: nat, amount: nat)
    requires ChangePage(slot, after, amount).Some?
    ensures after < ChangePage(slot, after, amount).value.0
    ensures ChangePage(slot, after, amount).value.0 in Changes(slot)
  {
    PageIsPage(Changes(slot).Keys, after, amount);
    var revisions := Page(Changes(slot).Keys, after, amount);
    assert revisions[|revisions| - 1] in revisions;
  }
}
