/** A migration that nobody disturbs ends: every confirmed tick either completes the
    run or leaves strictly fewer keys to page and revisions to replay. */
module Progress {
  import opened Common
  import opened StoreModel
  import opened SyncModel
  import opened Coverage

  /** The revision the journal will be read from when the run goes on. */
  function Resume(s: SyncState): nat {
    match s.phase
    case Snapshot(r) => r
    case Changing(_, pending) => pending
  }

  /** Keys still to page plus journal entries still to replay. */
  ghost function Remaining(slot: Slot, s: SyncState): nat {
    (if s.phase.Snapshot? then |KeysAbove(slot, s.currMaxKey)| else 0) + |RevisionsAbove(slot, Resume(s))|
  }

  lemma FewerKeysAbove(slot: Slot, bound: Key, last: Key)
    requires bound < last && last in Records(slot)
    ensures |KeysAbove(slot, last)| < |KeysAbove(slot, bound)|
  {
    assert last in KeysAbove(slot, bound);
    Cardinality(KeysAbove(slot, last), KeysAbove(slot, bound));
  }

  /** A quiet tick of a job: how it ends. */
  ghost predicate Advances(slot: Slot, l: Local, limit: nat) {
    || l.job == Finished(true)
    || (l.job == Finished(false) && l.state.Some? && !l.state.value.confirmed && l.sent.Some?
        && Cursor(l.state.value) <= Resume(l.state.value) && Remaining(slot, l.state.value) < limit)
  }

  lemma {:induction false} DrainingAdvances(slot: Slot, l: Local, limit: nat)
    requires Fits(l.job, l.state) && l.job.Draining? && l.job.from <= l.job.cursor && Stable(slot).Some?
    requires |RevisionsAbove(slot, l.job.cursor)| <= limit
    ensures Advances(slot, Finish(l, slot), limit)
    decreases |RevisionsAbove(slot, l.job.cursor)|
  {
    var a := Advance(l, slot);
    AdvanceFits(l, slot);
    var page := ChangePage(slot, l.job.cursor, SYNC_BATCH_SIZE);
    if page.None? {
      assert a.job == Settling;
      assert Finish(l, slot) == Finish(a, slot) == Finish(Advance(a, slot), slot);
    } else {
      ChangePageLast(slot, l.job.cursor, SYNC_BATCH_SIZE);
      FewerAbove(slot, l.job.cursor, page.value.0);
      if page.value.1 == [] {
        DrainingAdvances(slot, a, limit);
      } else {
        assert Finish(l, slot) == a;
      }
    }
  }

  /** One tick of a confirmed run over a partition with no writer in flight either
      completes it or sends another batch with strictly less left to do. */
  lemma ConfirmedTickAdvances(slot: Slot, s: SyncState, timedOut: bool)
    requires s.confirmed && Stable(slot).Some?
    ensures Fits(Begin(Some(s), timedOut).job, Some(s))
    ensures Advances(slot, Finish(Begin(Some(s), timedOut), slot), Remaining(slot, s))
  {
    var l := Begin(Some(s), timedOut);
    if s.phase.Snapshot? {
      var page := RecordPage(slot, Some(s.currMaxKey), SYNC_BATCH_SIZE);
      var a := Advance(l, slot);
      AdvanceFits(l, slot);
      if page == [] {
        DrainingAdvances(slot, a, Remaining(slot, s));
      } else {
        RecordPageExact(slot, Some(s.currMaxKey), SYNC_BATCH_SIZE);
        FewerKeysAbove(slot, s.currMaxKey, page[|page| - 1].0);
        assert Finish(l, slot) == a;
      }
    } else {
      DrainingAdvances(slot, l, Remaining(slot, s));
    }
  }

  /** Pruning up to a run's cursor takes nothing away from what the run has left. */
  lemma PruningKeepsRemaining(slot: Slot, s: SyncState, through: nat)
    requires through <= Resume(s)
    ensures Remaining(Pruned(slot, through), s) == Remaining(slot, s)
  {
    assert Records(Pruned(slot, through)) == Records(slot);
    assert KeysAbove(Pruned(slot, through), s.currMaxKey) == KeysAbove(slot, s.currMaxKey);
    assert RevisionsAbove(Pruned(slot, through), Resume(s)) == RevisionsAbove(slot, Resume(s));
  }

  /** How many confirmed ticks the run takes when every batch is acknowledged and,
      as the only run, lets the journal be pruned up to its cursor after each. */
  ghost function TicksToComplete(slot: Slot, s: SyncState): (ticks: nat)
    requires s.confirmed && Stable(slot).Some?
    ensures 0 < ticks <= Remaining(slot, s) + 1
    decreases Remaining(slot, s)
  {
    ConfirmedTickAdvances(slot, s, false);
    var l := Finish(Begin(Some(s), false), slot);
    if l.job == Finished(true) then 1
    else
      var s' := Acknowledged(l.state.value, l.state.value.currMaxKey);
      var slot' := Pruned(slot, Cursor(l.state.value));
      PruningKeepsRemaining(slot, l.state.value, Cursor(l.state.value));
      assert Remaining(slot', s') == Remaining(slot, l.state.value);
      1 + TicksToComplete(slot', s')
  }

  /** A run that waits is left alone until it times out. Then the page after the last
      confirmed key is sent again, or the first live stretch of the journal after the last
      confirmed revision, and its greatest key is waited for; what is being confirmed stays
      the same, and if nothing is left there nothing is sent. */
  lemma TimeoutsResend(slot: Slot, s: SyncState)
    requires !s.confirmed
    ensures Finish(Begin(Some(s), false), slot) == Local(Finished(false), Some(s), None)
    ensures s.phase.Snapshot? ==>
      var page := RecordPage(slot, s.prevMaxKey, SYNC_BATCH_SIZE);
      Finish(Begin(Some(s), true), slot) ==
        if page == [] then Local(Finished(false), Some(s), None)
        else Local(Finished(false), Some(s.(currMaxKey := MaxKey(ToWires(page)))), Some(ToWires(page)))
    ensures s.phase.Changing? ==>
      Finish(Begin(Some(s), true), slot) ==
        match NextChanges(slot, s.phase.confirmedRevision)
        case None => Local(Finished(false), Some(s), None)
        case Some((_, live)) =>
          Local(Finished(false), Some(s.(currMaxKey := MaxKey(ToWires(live)))), Some(ToWires(live)))
  {
    var l := Begin(Some(s), true);
    match s.phase
    case Snapshot(_) =>
      assert Finish(l, slot) == Finish(Advance(l, slot), slot);
      if RecordPage(slot, s.prevMaxKey, SYNC_BATCH_SIZE) != [] {
        PageLast(slot, s.prevMaxKey);
      }
    case Changing(_, _) => RedrainingFinishes(l, slot);
  }

  /** A partition without records and without writers is complete at once, and nothing is
      sent for it; with a writer inside, the recipient is left for later. */
  lemma EmptyPartitionsCompleteAtOnce(slot: Slot, timedOut: bool)
    requires Records(slot) == map[]
    ensures Finish(Begin(None, timedOut), slot) ==
      Local(Finished(slot.None? || slot.value.activeWriters == 0), None, None)
  {
    OpeningFinishes(slot);
    RecordPageExact(slot, None, SYNC_BATCH_SIZE);
    var page := RecordPage(slot, None, SYNC_BATCH_SIZE);
    assert page == [] by {
      assert forall i :: 0 <= i < |page| ==> page[i].0 in Records(slot);
    }
  }
}
