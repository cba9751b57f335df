/** Moving one partition to one recipient, as values: what travels, what the
    recipient answers, and the job the sender performs for the recipient on a
    tick, cut at every call into the store. */
module SyncModel {
  import opened Common
  import opened Ordered
  import opened StoreModel

  const SYNC_BATCH_SIZE: nat := 1000

  // ---------------------------------------------------------------- messages

  datatype Wire = Wire(key: Key, value: seq<Byte>, ttl: nat, creationTimeMs: nat, deleted: bool)

  function ToWire(k: Key, m: Mutation): Wire {
    match m
    case Put(r) => Wire(k, r.value, r.expirationTimeMs, r.creationTimeMs, false)
    case Delete(t) => Wire(k, [], 0, t, true)
  }

  function FromWire(w: Wire): Mutation {
    if w.deleted then Delete(w.creationTimeMs)
    else Put(Record(w.ttl, w.creationTimeMs, w.value))
  }

  function ToWires(entries: seq<(Key, Mutation)>): (r: seq<Wire>)
    ensures |r| == |entries|
  {
    seq(|entries|, i requires 0 <= i < |entries| => ToWire(entries[i].0, entries[i].1))
  }

  lemma WiresAre(entries: seq<(Key, Mutation)>)
    ensures forall i :: 0 <= i < |entries| ==> ToWires(entries)[i] == ToWire(entries[i].0, entries[i].1)
    ensures forall e :: e in entries ==> ToWire(e.0, e.1) in ToWires(entries)
  {
    var batch := ToWires(entries);
    forall e | e in entries ensures ToWire(e.0, e.1) in batch {
      var i :| 0 <= i < |entries| && entries[i] == e;
      assert batch[i] == ToWire(e.0, e.1);
    }
  }

  function MaxKey(batch: seq<Wire>): Key
    requires batch != []
  {
    if |batch| == 1 then batch[0].key
    else
      var rest := MaxKey(batch[1..]);
      if batch[0].key < rest then rest else batch[0].key
  }

  /** The greatest key of a batch. */
  lemma {:induction false} MaxKeyIsGreatest(batch: seq<Wire>)
    requires batch != []
    ensures exists i :: 0 <= i < |batch| && batch[i].key == MaxKey(batch)
    ensures forall i :: 0 <= i < |batch| ==> batch[i].key <= MaxKey(batch)
  {
    if |batch| > 1 {
      var rest := batch[1..];
      MaxKeyIsGreatest(rest);
      var i :| 0 <= i < |rest| && rest[i].key == MaxKey(rest);
      assert batch[i + 1].key == MaxKey(rest);
      assert forall j :: 1 <= j < |batch| ==> batch[j] == rest[j - 1];
      assert batch[0].key == MaxKey(batch) || batch[i + 1].key == MaxKey(batch);
    } else {
      assert batch[0].key == MaxKey(batch);
    }
  }

  /** An answer to a batch: every partition the batch touches, with the greatest
      key applied to it. */
  ghost predicate IsReply(batch: seq<Wire>, reply: map<PartitionId, Key>) {
    && (forall i :: 0 <= i < |batch| ==>
          PartitionOf(batch[i].key) in reply && batch[i].key <= reply[PartitionOf(batch[i].key)])
    && (forall p {:trigger Named(batch, p, reply[p])} :: p in reply ==> Named(batch, p, reply[p]))
  }

  /** The batch holds key `k`, of partition `p`. */
  ghost predicate Named(batch: seq<Wire>, p: PartitionId, k: Key) {
    exists i :: 0 <= i < |batch| && batch[i].key == k && PartitionOf(batch[i].key) == p
  }

  /** Both sides of the exchange agree: each mutation is rebuilt unchanged, and
      the answer to a batch of one partition names that partition alone, with the
      key the sender waits for. */
  lemma AcknowledgementRoundTrip(p: PartitionId, entries: seq<(Key, Mutation)>, reply: map<PartitionId, Key>)
    requires entries != []
    requires forall i :: 0 <= i < |entries| ==> PartitionOf(entries[i].0) == p
    requires IsReply(ToWires(entries), reply)
    ensures reply == map[p := MaxKey(ToWires(entries))]
    ensures forall i :: 0 <= i < |entries| ==>
      ToWires(entries)[i].key == entries[i].0 && FromWire(ToWires(entries)[i]) == entries[i].1
  {
    var batch := ToWires(entries);
    WiresAre(entries);
    forall i | 0 <= i < |entries| ensures batch[i].key == entries[i].0 && FromWire(batch[i]) == entries[i].1 {
      WireRoundTrip(entries[i].0, entries[i].1);
    }
    ReplyNamesOnePartition(p, batch, reply);
  }

  /** A mutation survives being sent. */
  lemma WireRoundTrip(k: Key, m: Mutation)
    ensures ToWire(k, m).key == k && FromWire(ToWire(k, m)) == m && ToWire(k, m).creationTimeMs == m.Version()
  {
  }

  lemma ReplyNamesOnePartition(p: PartitionId, batch: seq<Wire>, reply: map<PartitionId, Key>)
    requires batch != [] && IsReply(batch, reply)
    requires forall i :: 0 <= i < |batch| ==> PartitionOf(batch[i].key) == p
    ensures reply == map[p := MaxKey(batch)]
  {
    var k := MaxKey(batch);
    MaxKeyIsGreatest(batch);
    var top :| 0 <= top < |batch| && batch[top].key == k;
    assert PartitionOf(batch[top].key) == p;
    assert p in reply && k <= reply[p];
    ReplyBounded(p, batch, reply);
    assert reply[p] == k;
    assert reply.Keys == {p};
  }

  lemma ReplyBounded(p: PartitionId, batch: seq<Wire>, reply: map<PartitionId, Key>)
    requires batch != [] && IsReply(batch, reply)
    requires forall i :: 0 <= i < |batch| ==> PartitionOf(batch[i].key) == p
    ensures forall q :: q in reply ==> q == p && reply[q] <= MaxKey(batch)
  {
    MaxKeyIsGreatest(batch);
    forall q | q in reply ensures q == p && reply[q] <= MaxKey(batch) {
      assert Named(batch, q, reply[q]);
      var i :| 0 <= i < |batch| && batch[i].key == reply[q] && PartitionOf(batch[i].key) == q;
    }
  }

  // --------------------------------------------------------- sender's bookkeeping

  datatype Phase =
    | Snapshot(revision: nat)
    | Changing(confirmedRevision: nat, pendingRevision: nat)

  datatype SyncState = SyncState(prevMaxKey: Option<Key>, currMaxKey: Key, phase: Phase, confirmed: bool)

  /** The journal position below which a recipient needs no history. */
  function Cursor(s: SyncState): nat {
    match s.phase
    case Snapshot(r) => r
    case Changing(c, _) => c
  }

  /** An acknowledgement counts only when it names the key being waited for. */
  function Acknowledged(s: SyncState, key: Key): SyncState {
    if s.currMaxKey == key then s.(confirmed := true) else s
  }

  /** Runs still waiting for an acknowledgement. */
  function Unconfirmed(sync: map<NodeId, SyncState>): map<NodeId, SyncState> {
    map n | n in sync && !sync[n].confirmed :: sync[n]
  }

  /** How far back the runs in progress still need the journal. */
  ghost predicate IsLeastCursor(sync: map<NodeId, SyncState>, through: nat) {
    && (exists n :: n in sync && Cursor(sync[n]) == through)
    && forall n :: n in sync ==> through <= Cursor(sync[n])
  }

  /** What is left to do for a recipient on a tick; each unfinished case stands
      right before one call into the store. */
  datatype Job =
    | Opening                                // read the revision to start from
    | Starting(revision: nat)                // read the first page
    | StartedEmpty(revision: nat)            // re-read the revision: nothing to send?
    | Paging                                 // read the page after the confirmed key
    | Draining(from: nat, cursor: nat)       // read the journal after the cursor
    | Settling                               // journal drained: any writer in flight?
    | Repaging                               // timed out: read the same page again
    | Redraining(cursor: nat)                // timed out: read the journal again
    | Finished(completed: bool)

  /** A job in progress: the bookkeeping it works on and the batch it has sent. */
  datatype Local = Local(job: Job, state: Option<SyncState>, sent: Option<seq<Wire>>)

  function Begin(state: Option<SyncState>, timedOut: bool): Local {
    var job :=
      match state
      case None => Opening
      case Some(s) =>
        if s.confirmed then
          (match s.phase
           case Snapshot(_) => Paging
           case Changing(_, pending) => Draining(pending, pending))
        else if !timedOut then Finished(false)
        else
          (match s.phase
           case Snapshot(_) => Repaging
           case Changing(confirmed, _) => Redraining(confirmed));
    Local(job, state, None)
  }

  /** The bookkeeping a job can stand on. */
  predicate Fits(job: Job, state: Option<SyncState>) {
    match job
    case Opening => state.None?
    case Starting(_) => state.None?
    case StartedEmpty(_) => state.None?
    case Paging => state.Some? && state.value.confirmed && state.value.phase.Snapshot?
    case Draining(_, _) => state.Some? && state.value.confirmed
    case Settling => state.Some? && state.value.confirmed
    case Repaging => state.Some? && !state.value.confirmed && state.value.phase.Snapshot?
    case Redraining(_) => state.Some? && !state.value.confirmed && state.value.phase.Changing?
    case Finished(_) => true
  }

  function Sending(s: SyncState, batch: seq<Wire>): Local {
    Local(Finished(false), Some(s), Some(batch))
  }

  /** One store call of the job, and what the sender does with its answer. */
  ghost function Advance(l: Local, slot: Slot): Local
    requires Fits(l.job, l.state)
  {
    match l.job
    case Opening =>
      (match Stable(slot)
       case None => l.(job := Finished(false))
       case Some(r) => l.(job := Starting(r)))
    case Starting(r) =>
      var page := RecordPage(slot, None, SYNC_BATCH_SIZE);
      if page == [] then l.(job := StartedEmpty(r))
      else Sending(SyncState(None, page[|page| - 1].0, Snapshot(r), false), ToWires(page))
    case StartedEmpty(r) => l.(job := Finished(Stable(slot) == Some(r)))
    case Paging =>
      var s := l.state.value;
      var page := RecordPage(slot, Some(s.currMaxKey), SYNC_BATCH_SIZE);
      if page == [] then l.(job := Draining(s.phase.revision, s.phase.revision))
      else Sending(SyncState(Some(s.currMaxKey), page[|page| - 1].0, s.phase, false), ToWires(page))
    case Draining(from, cursor) =>
      (match ChangePage(slot, cursor, SYNC_BATCH_SIZE)
       case None => l.(job := Settling)
       case Some((last, live)) =>
         if live == [] then l.(job := Draining(from, last))
         else Sending(SyncState(None, MaxKey(ToWires(live)), Changing(from, last), false), ToWires(live)))
    case Settling =>
      if Stable(slot).Some? then Local(Finished(true), Some(l.state.value.(confirmed := true)), l.sent)
      else l.(job := Finished(false))
    case Repaging =>
      var s := l.state.value;
      var page := RecordPage(slot, s.prevMaxKey, SYNC_BATCH_SIZE);
      if page == [] then l.(job := Finished(false))
      else Sending(s.(currMaxKey := page[|page| - 1].0, confirmed := false), ToWires(page))
    case Redraining(cursor) =>
      (match ChangePage(slot, cursor, SYNC_BATCH_SIZE)
       case None => l.(job := Finished(false))
       case Some((last, live)) =>
         if live == [] then l.(job := Redraining(last))
         else Sending(l.state.value.(currMaxKey := MaxKey(ToWires(live)), confirmed := false), ToWires(live)))
    case Finished(_) => l
  }

  lemma AdvanceFits(l: Local, slot: Slot)
    requires Fits(l.job, l.state)
    ensures Fits(Advance(l, slot).job, Advance(l, slot).state)
  {
  }

  // ------------------------------------------------------ a job run undisturbed

  ghost function RevisionsAbove(slot: Slot, cursor: nat): set<nat> {
    set r | r in Changes(slot) && cursor < r
  }

  ghost function KeysAbove(slot: Slot, bound: int): set<Key> {
    set k | k in Records(slot) && bound < k
  }

  function Rank(job: Job): nat {
    match job
    case Opening => 5
    case Starting(_) => 4
    case Paging => 4
    case Repaging => 4
    case Draining(_, _) => 3
    case Redraining(_) => 3
    case StartedEmpty(_) => 2
    case Settling => 2
    case Finished(_) => 0
  }

  ghost function Left(job: Job, slot: Slot): nat {
    match job
    case Draining(_, cursor) => |RevisionsAbove(slot, cursor)|
    case Redraining(cursor) => |RevisionsAbove(slot, cursor)|
    case _ => 0
  }

  lemma FewerAbove(slot: Slot, cursor: nat, last: nat)
    requires cursor < last && last in Changes(slot)
    ensures |RevisionsAbove(slot, last)| < |RevisionsAbove(slot, cursor)|
  {
    assert last in RevisionsAbove(slot, cursor);
    Cardinality(RevisionsAbove(slot, last), RevisionsAbove(slot, cursor));
  }

  lemma {:induction false} Cardinality(a: set<nat>, b: set<nat>)
    requires a < b
    ensures |a| < |b|
  {
    var extra :| extra in b && extra !in a;
    if a == {} {
      assert b != {};
    } else {
      var x :| x in a;
      assert extra in b - {x} && extra !in a - {x};
      Cardinality(a - {x}, b - {x});
    }
  }

  /** Reading an exhausted stretch of the journal always moves the job on. */
  lemma JobShrinks(l: Local, slot: Slot)
    requires Fits(l.job, l.state) && !l.job.Finished?
    ensures var a := Advance(l, slot);
      Rank(a.job) < Rank(l.job) || (Rank(a.job) == Rank(l.job) && Left(a.job, slot) < Left(l.job, slot))
  {
    var a := Advance(l, slot);
    if (a.job.Draining? && l.job.Draining?) || a.job.Redraining? {
      JournalShrinks(slot, l.job.cursor);
    }
  }

  lemma JournalShrinks(slot: Slot, cursor: nat)
    ensures var page := ChangePage(slot, cursor, SYNC_BATCH_SIZE);
      page.Some? ==> |RevisionsAbove(slot, page.value.0)| < |RevisionsAbove(slot, cursor)|
  {
    var page := ChangePage(slot, cursor, SYNC_BATCH_SIZE);
    if page.Some? {
      ChangePageLast(slot, cursor, SYNC_BATCH_SIZE);
      FewerAbove(slot, cursor, page.value.0);
    }
  }

  /** The whole job against a store nobody else touches. */
  ghost function Finish(l: Local, slot: Slot): (r: Local)
    requires Fits(l.job, l.state)
    ensures r.job.Finished?
    decreases Rank(l.job), Left(l.job, slot)
  {
    if l.job.Finished? then l
    else
      JobShrinks(l, slot);
      AdvanceFits(l, slot);
      Finish(Advance(l, slot), slot)
  }

  /** The first stretch of the journal after the cursor with anything still stored. */
  ghost function NextChanges(slot: Slot, cursor: nat): (r: Option<(nat, seq<(Key, Mutation)>)>)
    ensures r.Some? ==> r.value.1 != [] && cursor < r.value.0
    decreases |RevisionsAbove(slot, cursor)|
  {
    match ChangePage(slot, cursor, SYNC_BATCH_SIZE)
    case None => None
    case Some((last, live)) =>
      ChangePageLast(slot, cursor, SYNC_BATCH_SIZE);
      if live != [] then Some((last, live))
      else
        FewerAbove(slot, cursor, last);
        NextChanges(slot, last)
  }

  /** Starting undisturbed sends the first page, or finds nothing to send. */
  lemma OpeningFinishes(slot: Slot)
    ensures Finish(Local(Opening, None, None), slot) ==
      var page := RecordPage(slot, None, SYNC_BATCH_SIZE);
      if Stable(slot).None? then Local(Finished(false), None, None)
      else if page == [] then Local(Finished(true), None, None)
      else Sending(SyncState(None, page[|page| - 1].0, Snapshot(Stable(slot).value), false), ToWires(page))
  {
    if Stable(slot).Some? {
      var started := Local(Starting(Stable(slot).value), None, None);
      assert Finish(Local(Opening, None, None), slot) == Finish(started, slot);
      if RecordPage(slot, None, SYNC_BATCH_SIZE) == [] {
        var empty := Local(StartedEmpty(Stable(slot).value), None, None);
        assert Finish(started, slot) == Finish(empty, slot);
        assert Finish(empty, slot) == Finish(Advance(empty, slot), slot);
      } else {
        assert Finish(started, slot) == Finish(Advance(started, slot), slot);
      }
    } else {
      assert Advance(Local(Opening, None, None), slot).job == Finished(false);
    }
  }

  /** Draining the journal undisturbed sends that stretch, or settles. */
  lemma {:induction false} DrainingFinishes(l: Local, slot: Slot)
    requires Fits(l.job, l.state) && l.job.Draining?
    ensures Finish(l, slot) ==
      match NextChanges(slot, l.job.cursor)
      case None => Finish(l.(job := Settling), slot)
      case Some((last, live)) =>
        Sending(SyncState(None, MaxKey(ToWires(live)), Changing(l.job.from, last), false), ToWires(live))
    decreases |RevisionsAbove(slot, l.job.cursor)|
  {
    var page := ChangePage(slot, l.job.cursor, SYNC_BATCH_SIZE);
    if page.Some? && page.value.1 == [] {
      ChangePageLast(slot, l.job.cursor, SYNC_BATCH_SIZE);
      FewerAbove(slot, l.job.cursor, page.value.0);
      DrainingFinishes(l.(job := Draining(l.job.from, page.value.0)), slot);
    }
  }

  lemma {:induction false} RedrainingFinishes(l: Local, slot: Slot)
    requires Fits(l.job, l.state) && l.job.Redraining?
    ensures Finish(l, slot) ==
      match NextChanges(slot, l.job.cursor)
      case None => l.(job := Finished(false))
      case Some((_, live)) =>
        Sending(l.state.value.(currMaxKey := MaxKey(ToWires(live)), confirmed := false), ToWires(live))
    decreases |RevisionsAbove(slot, l.job.cursor)|
  {
    var page := ChangePage(slot, l.job.cursor, SYNC_BATCH_SIZE);
    if page.Some? && page.value.1 == [] {
      ChangePageLast(slot, l.job.cursor, SYNC_BATCH_SIZE);
      FewerAbove(slot, l.job.cursor, page.value.0);
      RedrainingFinishes(l.(job := Redraining(page.value.0)), slot);
    }
  }
}
