/** The recipient's side of a batch: what it stores and what it answers. */
module Receiving {
  import opened Common
  import opened StoreModel
  import opened SyncModel
  import opened Convergence
  import Migration

  /** A batch applied to partition `p`, record by record; each record takes the
      store's next revision, whichever partition it belongs to. */
  function Received(slot: Slot, next: nat, batch: seq<Wire>, p: PartitionId): Slot {
    if batch == [] then slot
    else
      var w, before := batch[|batch| - 1], Received(slot, next, batch[..|batch| - 1], p);
      if PartitionOf(w.key) == p then Written(before, next + |batch| - 1, w.key, FromWire(w)) else before
  }

  /** Notes a key as applied to its partition. */
  function Noted(reply: map<PartitionId, Key>, k: Key): map<PartitionId, Key> {
    var p := PartitionOf(k);
    if p in reply && k <= reply[p] then reply else reply[p := k]
  }

  function ReplyTo(batch: seq<Wire>): map<PartitionId, Key> {
    if batch == [] then map[] else Noted(ReplyTo(batch[..|batch| - 1]), batch[|batch| - 1].key)
  }

  lemma ReplyGrows(done: seq<Wire>, w: Wire, reply: map<PartitionId, Key>)
    requires IsReply(done, reply)
    ensures IsReply(done + [w], Noted(reply, w.key))
  {
    var all, r := done + [w], Noted(reply, w.key);
    forall q | q in r ensures Named(all, q, r[q]) {
      if q in reply && r[q] == reply[q] {
        assert Named(done, q, reply[q]);
        var i :| 0 <= i < |done| && done[i].key == reply[q] && PartitionOf(done[i].key) == q;
        assert all[i].key == r[q];
      } else {
        assert all[|done|].key == r[q];
      }
    }
  }

  /** The answer names the partitions of the batch, each with its greatest key. */
  lemma {:induction false} ReplyToIsReply(batch: seq<Wire>)
    ensures IsReply(batch, ReplyTo(batch))
  {
    if batch != [] {
      var front, w := batch[..|batch| - 1], batch[|batch| - 1];
      assert batch == front + [w];
      ReplyToIsReply(front);
      ReplyGrows(front, w, ReplyTo(front));
    }
  }

  type Cache = map<PartitionId, PartitionStore>

  function SlotIn(cache: Cache, p: PartitionId): Slot {
    if p in cache then Some(cache[p]) else None
  }

  function StoredOne(cache: Cache, next: nat, w: Wire): Cache {
    var p := PartitionOf(w.key);
    cache[p := Written(SlotIn(cache, p), next, w.key, FromWire(w)).value]
  }

  /** A batch applied to the whole store. */
  function Stored(cache: Cache, next: nat, batch: seq<Wire>): Cache {
    if batch == [] then cache
    else StoredOne(Stored(cache, next, batch[..|batch| - 1]), next + |batch| - 1, batch[|batch| - 1])
  }

  /** ... reaches each partition with its own records and no others. */
  lemma {:induction false} StoredAt(cache: Cache, next: nat, batch: seq<Wire>, p: PartitionId)
    ensures SlotIn(Stored(cache, next, batch), p) == Received(SlotIn(cache, p), next, batch, p)
  {
    if batch != [] {
      StoredAt(cache, next, batch[..|batch| - 1], p);
    }
  }

  function Writes(batch: seq<Wire>, p: PartitionId): seq<Write> {
    if batch == [] then []
    else
      var w := batch[|batch| - 1];
      Writes(batch[..|batch| - 1], p) + if PartitionOf(w.key) == p then [(w.key, FromWire(w))] else []
  }

  /** Receiving a batch merges its records, so that everything proved of merging
      holds of migrated records too. */
  lemma {:induction false} ReceivingMerges(slot: Slot, next: nat, batch: seq<Wire>, p: PartitionId)
    ensures Records(Received(slot, next, batch, p)) == MergeAll(Records(slot), Writes(batch, p))
  {
    if batch != [] {
      var front, w := batch[..|batch| - 1], batch[|batch| - 1];
      ReceivingMerges(slot, next, front, p);
      var writes := Writes(front, p);
      assert writes + [] == writes;
      assert (writes + [(w.key, FromWire(w))])[..|writes|] == writes;
    }
  }

  /** Every received record is journaled under its own revision. */
  lemma {:induction false} ReceivingJournals(slot: Slot, next: nat, batch: seq<Wire>, p: PartitionId, r: nat)
    requires forall q :: q in Changes(slot) ==> q <= next
    ensures var after := Changes(Received(slot, next, batch, p));
      if next < r <= next + |batch| && PartitionOf(batch[r - next - 1].key) == p
      then r in after && after[r] == batch[r - next - 1].key
      else (r in after <==> r in Changes(slot)) && (r in after ==> after[r] == Changes(slot)[r])
  {
    if batch != [] {
      ReceivingJournals(slot, next, batch[..|batch| - 1], p, r);
    }
  }

  lemma {:induction false} MergeAllFirst(records: map<Key, Mutation>, first: Write, rest: seq<Write>)
    ensures MergeAll(records, [first] + rest) == MergeAll(Merge(records, first.0, first.1), rest)
  {
    var all := [first] + rest;
    if rest == [] {
      assert all[..0] == [] && all[|all| - 1] == first;
      assert MergeAll(records, []) == records;
    } else {
      assert all[..|all| - 1] == [first] + rest[..|rest| - 1];
      MergeAllFirst(records, first, rest[..|rest| - 1]);
    }
  }

  lemma {:induction false} WritesFirst(batch: seq<Wire>, p: PartitionId)
    requires batch != [] && PartitionOf(batch[0].key) == p
    ensures Writes(batch, p) == [(batch[0].key, FromWire(batch[0]))] + Writes(batch[1..], p)
  {
    var front := batch[..|batch| - 1];
    if front == [] {
      assert batch[1..] == [] && Writes(front, p) == [];
    } else {
      WritesFirst(front, p);
      assert front[1..] == batch[1..][..|batch[1..]| - 1];
    }
  }

  /** The recipients of the migration model store what receiving a batch stores. */
  lemma {:induction false} AbsorbingMerges(peer: Migration.Peer, batch: seq<Wire>, p: PartitionId)
    requires Migration.BatchIn(p, batch)
    ensures Migration.Absorb(peer, batch).records == MergeAll(peer.records, Writes(batch, p))
    decreases |batch|
  {
    if batch != [] {
      assert PartitionOf(batch[0].key) == p;
      var taken := Migration.TakeIn(peer, batch[0]);
      AbsorbingMerges(taken, batch[1..], p);
      WritesFirst(batch, p);
      MergeAllFirst(peer.records, (batch[0].key, FromWire(batch[0])), Writes(batch[1..], p));
    }
  }
}
