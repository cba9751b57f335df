/** The store calls of the service loop keep the invariants of a migration. */
module MigrationCalls {
  import opened Common
  import opened StoreModel
  import opened SyncModel
  import opened Coverage
  import opened Migration
  import opened MigrationSteps

  /** The run towards the recipient being served, after the call. */
  ghost predicate ServedRun(s: State, sync': map<NodeId, SyncState>, net': map<NodeId, Net>) {
    s.pc.Serving? && (s.pc.n in sync' ==>
      s.pc.n in net' && RunInv(s.id, s.slot, s.next, sync'[s.pc.n], net'[s.pc.n], PeerOf(s.peers, s.pc.n).high))
  }

  ghost predicate Ready(s: State) {
    && CanCall(s)
    && StoreInv(s.id, s.slot, s.next, s.issued, s.log)
    && PcInv(s.pc, s.slot, s.next, s.sync, s.net, s.peers)
    && (s.pc.n in s.net ==> NetInv(s.id, s.net[s.pc.n], PeerOf(s.peers, s.pc.n).high))
    && (s.pc.n in s.sync ==>
          s.pc.n in s.net && RunInv(s.id, s.slot, s.next, s.sync[s.pc.n], s.net[s.pc.n], PeerOf(s.peers, s.pc.n).high))
  }

  /** What a call that sends a batch leaves behind. */
  ghost predicate Sends(s: State, st: SyncState, net: Net)
    requires CanCall(s)
  {
    AfterCall(s).sync == s.sync[s.pc.n := st] && AfterCall(s).net == s.net[s.pc.n := net]
  }

  ghost predicate Silent(s: State)
    requires CanCall(s)
  {
    AfterCall(s).sync == s.sync && AfterCall(s).net == s.net
  }

  lemma LocalSends(s: State, st: SyncState, batch: seq<Wire>)
    requires s.pc.Serving? && Some(st) != StateOf(s.sync, s.pc.n)
    ensures var s', net := AfterLocal(s, Sending(st, batch)), NetOf(s.net, s.pc.n);
      && s'.sync == s.sync[s.pc.n := st]
      && s'.net == s.net[s.pc.n := Posted(net.(clean := s.pc.job.Starting? || net.clean), batch,
                                          GoodAfter(net, s.pc.job, StateOf(s.sync, s.pc.n), s.slot))]
  {
  }

  lemma LocalSilent(s: State, l: Local)
    requires s.pc.Serving? && l.sent == None && l.state == StateOf(s.sync, s.pc.n)
    ensures AfterLocal(s, l).sync == s.sync && AfterLocal(s, l).net == s.net
  {
  }

  lemma StartingShape(s: State)
    requires CanCall(s) && (s.pc.job.Opening? || s.pc.job.Starting? || s.pc.job.StartedEmpty?)
    ensures var page, net := RecordPage(s.slot, None, SYNC_BATCH_SIZE), NetOf(s.net, s.pc.n);
      if s.pc.job.Starting? && page != []
      then Sends(s, SyncState(None, page[|page| - 1].0, Snapshot(s.pc.job.revision), false),
                 Posted(net.(clean := true), ToWires(page), {|net.sent|}))
      else Silent(s)
  {
    var page := RecordPage(s.slot, None, SYNC_BATCH_SIZE);
    if s.pc.job.Starting? && page != [] {
      LocalSends(s, SyncState(None, page[|page| - 1].0, Snapshot(s.pc.job.revision), false), ToWires(page));
    } else {
      LocalSilent(s, Advance(LocalOf(s), s.slot));
    }
  }

  /** What paging after `after` leaves behind. */
  ghost predicate Pages(s: State, after: Option<Key>)
    requires CanCall(s) && s.pc.n in s.sync && s.pc.n in s.net
  {
    var page := RecordPage(s.slot, after, SYNC_BATCH_SIZE);
    var st, net := s.sync[s.pc.n], s.net[s.pc.n];
    if page != []
    then Sends(s, SyncState(after, page[|page| - 1].0, st.phase, false),
               Posted(net, ToWires(page), net.good + {|net.sent|}))
    else Silent(s)
  }

  lemma PagingShape(s: State)
    requires CanCall(s) && s.pc.job.Paging? && s.pc.n in s.net
    ensures Pages(s, Some(s.sync[s.pc.n].currMaxKey))
  {
    var st := s.sync[s.pc.n];
    var page := RecordPage(s.slot, Some(st.currMaxKey), SYNC_BATCH_SIZE);
    if page != [] {
      LocalSends(s, SyncState(Some(st.currMaxKey), page[|page| - 1].0, st.phase, false), ToWires(page));
    } else {
      LocalSilent(s, Advance(LocalOf(s), s.slot));
    }
  }

  lemma RepagingShape(s: State)
    requires CanCall(s) && s.pc.job.Repaging? && s.pc.n in s.net
    ensures Pages(s, s.sync[s.pc.n].prevMaxKey)
  {
    var st := s.sync[s.pc.n];
    var page := RecordPage(s.slot, st.prevMaxKey, SYNC_BATCH_SIZE);
    if page != [] {
      RepeatedSends(s, SyncState(st.prevMaxKey, page[|page| - 1].0, st.phase, false), ToWires(page));
    } else {
      LocalSilent(s, Advance(LocalOf(s), s.slot));
    }
  }

  /** A repeated batch may leave the bookkeeping as it was. */
  lemma RepeatedSends(s: State, st: SyncState, batch: seq<Wire>)
    requires s.pc.Serving? && s.pc.n in s.sync && s.pc.n in s.net && !s.pc.job.Starting?
    ensures var s', net := AfterLocal(s, Sending(st, batch)), s.net[s.pc.n];
      && s'.sync == s.sync[s.pc.n := st]
      && s'.net == s.net[s.pc.n := Posted(net, batch, GoodAfter(net, s.pc.job, StateOf(s.sync, s.pc.n), s.slot))]
  {
    if st == s.sync[s.pc.n] {
      assert s.sync[s.pc.n := st] == s.sync;
    }
  }

  lemma DrainingShape(s: State)
    requires CanCall(s) && s.pc.job.Draining? && s.pc.n in s.net
    ensures var page := ChangePage(s.slot, s.pc.job.cursor, SYNC_BATCH_SIZE);
      var net := s.net[s.pc.n];
      if page.Some? && page.value.1 != []
      then Sends(s, SyncState(None, MaxKey(ToWires(page.value.1)), Changing(s.pc.job.from, page.value.0), false),
                 Posted(net, ToWires(page.value.1), {|net.sent|}))
      else Silent(s)
  {
    var page := ChangePage(s.slot, s.pc.job.cursor, SYNC_BATCH_SIZE);
    if page.Some? && page.value.1 != [] {
      var batch := ToWires(page.value.1);
      LocalSends(s, SyncState(None, MaxKey(batch), Changing(s.pc.job.from, page.value.0), false), batch);
    } else {
      LocalSilent(s, Advance(LocalOf(s), s.slot));
    }
  }

  lemma RedrainingShape(s: State)
    requires CanCall(s) && s.pc.job.Redraining? && s.pc.n in s.net
    ensures var page := ChangePage(s.slot, s.pc.job.cursor, SYNC_BATCH_SIZE);
      var st, net := s.sync[s.pc.n], s.net[s.pc.n];
      if page.Some? && page.value.1 != []
      then Sends(s, SyncState(st.prevMaxKey, MaxKey(ToWires(page.value.1)), st.phase, false),
                 Posted(net, ToWires(page.value.1),
                        if st.phase.pendingRevision <= page.value.0 then net.good + {|net.sent|} else net.good))
      else Silent(s)
  {
    var page := ChangePage(s.slot, s.pc.job.cursor, SYNC_BATCH_SIZE);
    var st := s.sync[s.pc.n];
    if page.Some? && page.value.1 != [] {
      var batch := ToWires(page.value.1);
      RepeatedSends(s, SyncState(st.prevMaxKey, MaxKey(batch), st.phase, false), batch);
    } else {
      LocalSilent(s, Advance(LocalOf(s), s.slot));
    }
  }

  lemma FirstServed(s: State)
    requires StoreInv(s.id, s.slot, s.next, s.issued, s.log)
    requires s.pc.Serving? && s.pc.job.Starting? && s.pc.job.revision <= s.next
    requires s.pc.n in s.net ==> NetInv(s.id, s.net[s.pc.n], PeerOf(s.peers, s.pc.n).high)
    requires RecordPage(s.slot, None, SYNC_BATCH_SIZE) != []
    ensures var page, net := RecordPage(s.slot, None, SYNC_BATCH_SIZE), NetOf(s.net, s.pc.n);
      ServedRun(s, s.sync[s.pc.n := SyncState(None, page[|page| - 1].0, Snapshot(s.pc.job.revision), false)],
                s.net[s.pc.n := Posted(net.(clean := true), ToWires(page), {|net.sent|})])
  {
    StartedRun(s.id, s.slot, s.next, s.pc.job.revision, PeerOf(s.peers, s.pc.n).high, NetOf(s.net, s.pc.n));
  }

  lemma StartingCall(s: State)
    requires Ready(s) && (s.pc.job.Opening? || s.pc.job.Starting? || s.pc.job.StartedEmpty?)
    ensures ServedRun(s, AfterCall(s).sync, AfterCall(s).net)
  {
    StartingShape(s);
    if s.pc.job.Starting? && RecordPage(s.slot, None, SYNC_BATCH_SIZE) != [] {
      FirstServed(s);
    }
  }

  lemma PagingCall(s: State)
    requires Ready(s) && s.pc.job.Paging?
    ensures ServedRun(s, AfterCall(s).sync, AfterCall(s).net)
  {
    var n := s.pc.n;
    var st := s.sync[n];
    PagingShape(s);
    if RecordPage(s.slot, Some(st.currMaxKey), SYNC_BATCH_SIZE) != [] {
      PagedRun(s.id, s.slot, s.next, st, s.net[n], PeerOf(s.peers, n).high, Some(st.currMaxKey));
    }
  }

  lemma RepagingCall(s: State)
    requires Ready(s) && s.pc.job.Repaging?
    ensures ServedRun(s, AfterCall(s).sync, AfterCall(s).net)
  {
    var n := s.pc.n;
    var st := s.sync[n];
    RepagingShape(s);
    if RecordPage(s.slot, st.prevMaxKey, SYNC_BATCH_SIZE) != [] {
      PagedRun(s.id, s.slot, s.next, st, s.net[n], PeerOf(s.peers, n).high, st.prevMaxKey);
    }
  }

  lemma DrainingCall(s: State)
    requires Ready(s) && s.pc.job.Draining?
    ensures ServedRun(s, AfterCall(s).sync, AfterCall(s).net)
  {
    var n, cursor := s.pc.n, s.pc.job.cursor;
    DrainingShape(s);
    var page := ChangePage(s.slot, cursor, SYNC_BATCH_SIZE);
    if page.Some? && page.value.1 != [] {
      ChangePageLast(s.slot, cursor, SYNC_BATCH_SIZE);
      DrainedRun(s.id, s.slot, s.next, s.sync[n], s.net[n], PeerOf(s.peers, n).high, s.pc.job.from, cursor);
    }
  }

  lemma RedrainingCall(s: State)
    requires Ready(s) && s.pc.job.Redraining?
    ensures ServedRun(s, AfterCall(s).sync, AfterCall(s).net)
  {
    var n, cursor := s.pc.n, s.pc.job.cursor;
    var st := s.sync[n];
    RedrainingShape(s);
    var page := ChangePage(s.slot, cursor, SYNC_BATCH_SIZE);
    if page.Some? && page.value.1 != [] {
      RedrainedRun(s.id, s.slot, s.next, st, s.net[n], PeerOf(s.peers, n).high, cursor);
    }
  }

  lemma SettlingCall(s: State)
    requires Ready(s) && s.pc.job.Settling?
    ensures ServedRun(s, AfterCall(s).sync, AfterCall(s).net)
  {
    assert s.sync[s.pc.n].(confirmed := true) == s.sync[s.pc.n];
  }

  /** Serving a recipient changes nothing of the others. */
  lemma LocalShape(s: State, l: Local)
    requires s.pc.Serving?
    ensures var n, s' := s.pc.n, AfterLocal(s, l);
      && (if n in s'.sync then s'.sync == s.sync[n := s'.sync[n]] else s'.sync == s.sync)
      && (if n in s'.net then s'.net == s.net[n := s'.net[n]] else s'.net == s.net)
  {
  }

  lemma RunServed(s: State)
    requires Ready(s)
    ensures ServedRun(s, AfterCall(s).sync, AfterCall(s).net)
  {
    match s.pc.job
    case Opening => StartingCall(s);
    case Starting(_) => StartingCall(s);
    case StartedEmpty(_) => StartingCall(s);
    case Paging => PagingCall(s);
    case Repaging => RepagingCall(s);
    case Draining(_, _) => DrainingCall(s);
    case Redraining(_) => RedrainingCall(s);
    case Settling => SettlingCall(s);
  }

  lemma LocalRuns(s: State, l: Local)
    requires RunsInv(s.id, s.slot, s.next, s.sync, s.net, s.peers)
    requires s.pc.Serving? && ServedRun(s, AfterLocal(s, l).sync, AfterLocal(s, l).net)
    ensures var s' := AfterLocal(s, l); RunsInv(s.id, s.slot, s.next, s'.sync, s'.net, s.peers)
  {
    var n, s' := s.pc.n, AfterLocal(s, l);
    LocalShape(s, l);
    if n in s'.sync {
      RunsReplace(s.id, s.slot, s.next, s.sync, s.net, s.peers, n, s'.sync[n], s'.net[n]);
    } else if n in s'.net {
      RunsElsewhere(s.id, s.slot, s.next, s.sync, s.net, s.peers, n, s'.net[n]);
    }
  }

  lemma CallRuns(s: State)
    requires Ready(s) && RunsInv(s.id, s.slot, s.next, s.sync, s.net, s.peers)
    ensures var s' := AfterCall(s); RunsInv(s'.id, s'.slot, s'.next, s'.sync, s'.net, s'.peers)
  {
    RunServed(s);
    LocalRuns(s, Advance(LocalOf(s), s.slot));
  }

  lemma CallNets(s: State)
    requires Ready(s) && NetsInv(s.id, s.net, s.peers)
    ensures NetsInv(s.id, AfterCall(s).net, s.peers)
  {
    var n, s' := s.pc.n, AfterCall(s);
    if s'.net != s.net {
      CallPosts(s);
    }
  }

  /** A call that sends changes the messages of the recipient served, and these hold. */
  lemma CallPosts(s: State)
    requires Ready(s) && AfterCall(s).net != s.net
    ensures var n, s' := s.pc.n, AfterCall(s);
      && n in s'.net && s'.net == s.net[n := s'.net[n]] && NetInv(s.id, s'.net[n], PeerOf(s.peers, n).high)
  {
    match s.pc.job
    case Opening => StartingShape(s);
    case Starting(_) => StartingCall(s); StartingShape(s);
    case StartedEmpty(_) => StartingShape(s);
    case Paging => PagingCall(s); PagingShape(s);
    case Repaging => RepagingCall(s); RepagingShape(s);
    case Draining(_, _) => DrainingCall(s); DrainingShape(s);
    case Redraining(_) => RedrainingCall(s); RedrainingShape(s);
    case Settling =>
  }

  // ------------------------------------------------------- where the job stands next

  ghost predicate PcHolds(s: State) {
    PcInv(s.pc, s.slot, s.next, s.sync, s.net, s.peers)
  }

  lemma StartingPc(s: State)
    requires Ready(s) && s.pc.job.Starting?
    ensures PcHolds(AfterCall(s))
  {
    RecordPageExact(s.slot, None, SYNC_BATCH_SIZE);
    if RecordPage(s.slot, None, SYNC_BATCH_SIZE) == [] {
      assert Records(s.slot) == map[];
    }
  }

  lemma PagingPc(s: State)
    requires Ready(s) && s.pc.job.Paging?
    ensures PcHolds(AfterCall(s))
  {
    var st := s.sync[s.pc.n];
    if RecordPage(s.slot, Some(st.currMaxKey), SYNC_BATCH_SIZE) == [] {
      if s.net[s.pc.n].clean {
        NoPageSettles(s.slot, PeerOf(s.peers, s.pc.n).high, st.phase.revision, Some(st.currMaxKey));
      }
    }
  }

  lemma OtherPc(s: State)
    requires Ready(s)
    requires s.pc.job.Opening? || s.pc.job.StartedEmpty? || s.pc.job.Repaging? || s.pc.job.Settling?
    ensures PcHolds(AfterCall(s))
  {
  }

  lemma CallPc(s: State)
    requires Ready(s)
    ensures PcHolds(AfterCall(s))
  {
    match s.pc.job
    case Starting(r) => StartingPc(s);
    case Paging => PagingPc(s);
    case Draining(from, cursor) => DrainingPc(s, cursor);
    case Redraining(cursor) => DrainingPc(s, cursor);
    case _ => OtherPc(s);
  }

  /** Where reading the journal leads: onwards past a dead stretch, to the end of the
      job, or to the question whether a writer is in flight. */
  ghost predicate Drains(l: Local, slot: Slot, cursor: nat, a: Local) {
    var page := ChangePage(slot, cursor, SYNC_BATCH_SIZE);
    match a.job
    case Draining(from, last) => l.job.Draining? && from == l.job.from && page.Some? && page.value == (last, []) && a.state == l.state
    case Redraining(last) => l.job.Redraining? && page.Some? && page.value == (last, []) && a.state == l.state
    case Settling => l.job.Draining? && page.None? && a.state == l.state
    case Finished(_) => true
    case _ => false
  }

  lemma DrainsOn(l: Local, slot: Slot, cursor: nat)
    requires Fits(l.job, l.state)
    requires l.job == Redraining(cursor) || (l.job.Draining? && l.job.cursor == cursor)
    ensures Drains(l, slot, cursor, Advance(l, slot))
  {
  }

  lemma LocalDrains(s: State, cursor: nat, l: Local)
    requires Ready(s) && Drains(LocalOf(s), s.slot, cursor, l) && (!l.job.Finished? ==> l.sent == None)
    requires s.pc.job == Redraining(cursor) || (s.pc.job.Draining? && s.pc.job.cursor == cursor)
    ensures PcHolds(AfterLocal(s, l))
  {
    var n := s.pc.n;
    var high := PeerOf(s.peers, n).high;
    var page := ChangePage(s.slot, cursor, SYNC_BATCH_SIZE);
    if page.Some? {
      ChangePageLast(s.slot, cursor, SYNC_BATCH_SIZE);
      if s.net[n].clean {
        ChangesCarry(s.slot, high, cursor);
      }
    } else if s.net[n].clean {
      DrainedDominates(s.slot, high, cursor);
    }
  }

  lemma QuietUntilFinished(l: Local, slot: Slot)
    requires Fits(l.job, l.state) && l.sent == None && !Advance(l, slot).job.Finished?
    ensures Advance(l, slot).sent == None
  {
  }

  lemma DrainingPc(s: State, cursor: nat)
    requires Ready(s)
    requires s.pc.job == Redraining(cursor) || (s.pc.job.Draining? && s.pc.job.cursor == cursor)
    ensures PcHolds(AfterCall(s))
  {
    var l := Advance(LocalOf(s), s.slot);
    DrainsOn(LocalOf(s), s.slot, cursor);
    if !l.job.Finished? {
      QuietUntilFinished(LocalOf(s), s.slot);
    }
    LocalDrains(s, cursor, l);
  }

  /** A job never moves a cursor back, and starts from a revision it just read. */
  lemma AdvanceCursor(l: Local, slot: Slot, next: nat)
    requires Fits(l.job, l.state) && !l.job.Finished?
    requires l.job.Draining? ==> Cursor(l.state.value) <= l.job.from
    ensures var a := Advance(l, slot);
      && (l.state.Some? && a.state.Some? ==> Cursor(l.state.value) <= Cursor(a.state.value))
      && (l.state.None? && a.state.Some? ==> l.job.Starting? && Cursor(a.state.value) == l.job.revision)
      && (a.job.Starting? ==> l.job.Opening? && Stable(slot) == Some(a.job.revision))
  {
  }

  lemma LocalHistory(s: State, l: Local)
    requires s.pc.Serving? && HistoryInv(s.slot, s.log, s.sync, s.pc)
    requires s.pc.n in s.sync && l.state.Some? ==> Cursor(s.sync[s.pc.n]) <= Cursor(l.state.value)
    requires s.pc.n !in s.sync && l.state.Some? ==> s.pc.job.Starting? && Cursor(l.state.value) == s.pc.job.revision
    requires l.job.Starting? ==> Retained(s.slot, s.log, l.job.revision)
    ensures var s' := AfterLocal(s, l); HistoryInv(s'.slot, s'.log, s'.sync, s'.pc)
  {
    var s' := AfterLocal(s, l);
    forall m | m in s'.sync ensures Retained(s.slot, s.log, Cursor(s'.sync[m])) {
      if m in s.sync {
        assert Retained(s.slot, s.log, Cursor(s.sync[m]));
      }
    }
  }

  lemma CallHistory(s: State)
    requires Ready(s) && HistoryInv(s.slot, s.log, s.sync, s.pc)
    ensures var s' := AfterCall(s); HistoryInv(s'.slot, s'.log, s'.sync, s'.pc)
  {
    AdvanceCursor(LocalOf(s), s.slot, s.next);
    LocalHistory(s, Advance(LocalOf(s), s.slot));
  }

  lemma CompletesAfterScan(l: Local, slot: Slot)
    requires Fits(l.job, l.state) && !l.job.Finished? && Advance(l, slot).job == Finished(true)
    ensures l.job.Settling? || l.job.StartedEmpty?
  {
  }

  lemma LocalDeclared(s: State, l: Local)
    requires s.pc.Serving? && DeclaredInv(s.declared, s.peers)
    requires PcInv(s.pc, s.slot, s.next, s.sync, s.net, s.peers)
    requires l.job == Finished(true) ==> s.pc.job.Settling? || s.pc.job.StartedEmpty?
    requires s.pc.job.Settling? ==> s.pc.n in s.net
    ensures DeclaredInv(AfterLocal(s, l).declared, s.peers)
  {
    forall d | d in AfterLocal(s, l).declared ensures Dominates(PeerOf(s.peers, d.0).high, d.1) {
    }
  }

  lemma CallDeclared(s: State)
    requires Ready(s) && DeclaredInv(s.declared, s.peers)
    ensures DeclaredInv(AfterCall(s).declared, AfterCall(s).peers)
  {
    var l := Advance(LocalOf(s), s.slot);
    if l.job == Finished(true) {
      CompletesAfterScan(LocalOf(s), s.slot);
    }
    LocalDeclared(s, l);
  }

  /** Where a job of a tick without writers can come to stand. */
  ghost predicate Calmly(l: Local, seen: map<Key, Mutation>, slot: Slot, a: Local) {
    && (a.job == Finished(false) ==> a.state.Some? && !a.state.value.confirmed)
    && (a.job == Finished(true) ==> l.job.Settling? || l.job.StartedEmpty?)
    && (a.job.Starting? ==> Stable(slot) == Some(a.job.revision))
    && (a.job.StartedEmpty? ==> Stable(slot) == Some(a.job.revision))
  }

  ghost predicate CalmJob(job: Job, seen: map<Key, Mutation>, slot: Slot) {
    match job
    case Starting(r) => Stable(slot) == Some(r)
    case StartedEmpty(r) => Stable(slot) == Some(r) && seen == Records(slot)
    case Settling => seen == Records(slot)
    case _ => true
  }

  lemma AdvancesCalmly(l: Local, seen: map<Key, Mutation>, slot: Slot)
    requires Fits(l.job, l.state) && !l.job.Finished? && !Busy(slot) && CalmJob(l.job, seen, slot)
    ensures Calmly(l, seen, slot, Advance(l, slot))
  {
  }

  lemma LocalCalm(s: State, l: Local)
    requires s.pc.Serving? && CalmInv(s.tick, s.pc, s.slot, s.sync, s.declared)
    requires s.tick.calm ==> Calmly(LocalOf(s), s.pc.seen, s.slot, l)
    ensures var s' := AfterLocal(s, l); CalmInv(s'.tick, s'.pc, s'.slot, s'.sync, s'.declared)
  {
    var s' := AfterLocal(s, l);
    if s.tick.calm {
      forall o | o in s'.tick.targets
        ensures o in Awaiting(s'.pc) || Served(s'.tick, s'.slot, s'.sync, s'.declared, o)
      {
        assert o in Awaiting(s.pc) || Served(s.tick, s.slot, s.sync, s.declared, o);
      }
    }
  }

  lemma CallCalm(s: State)
    requires Ready(s) && CalmInv(s.tick, s.pc, s.slot, s.sync, s.declared)
    ensures var s' := AfterCall(s); CalmInv(s'.tick, s'.pc, s'.slot, s'.sync, s'.declared)
  {
    if s.tick.calm {
      AdvancesCalmly(LocalOf(s), s.pc.seen, s.slot);
    }
    LocalCalm(s, Advance(LocalOf(s), s.slot));
  }

  /** A run starts from a revision that no writer in flight will publish. */
  lemma AdvanceStarts(l: Local, id: PartitionId, slot: Slot, next: nat, issued: set<nat>, log: map<nat, Key>)
    requires Fits(l.job, l.state) && !l.job.Finished? && StoreInv(id, slot, next, issued, log)
    requires StartInv(Serving({}, 0, l.job, map[]), slot, next, issued)
    ensures StartInv(Serving({}, 0, Advance(l, slot).job, map[]), slot, next, issued)
  {
    var a := Advance(l, slot);
    if a.job.Starting? {
      assert l.job.Opening? && !Busy(slot);
      assert issued == {};
    } else if a.job.StartedEmpty? {
      assert l.job.Starting? && RecordPage(slot, None, SYNC_BATCH_SIZE) == [];
      RecordPageExact(slot, None, SYNC_BATCH_SIZE);
      assert Records(slot) == map[];
    }
  }

  lemma CallStarts(s: State)
    requires CanCall(s) && StoreInv(s.id, s.slot, s.next, s.issued, s.log) && StartInv(s.pc, s.slot, s.next, s.issued)
    ensures var s' := AfterCall(s); StartInv(s'.pc, s'.slot, s'.next, s'.issued)
  {
    AdvanceStarts(LocalOf(s), s.id, s.slot, s.next, s.issued, s.log);
  }

  lemma StoreCallStep(s: State)
    requires Inv(s) && CanCall(s)
    ensures Inv(AfterCall(s))
  {
    assert Ready(s);
    CallRuns(s);
    CallNets(s);
    CallPc(s);
    CallHistory(s);
    CallDeclared(s);
    CallCalm(s);
    CallStarts(s);
  }
}
