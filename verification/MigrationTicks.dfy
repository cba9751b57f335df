/** The remaining steps of a tick, and the invariants over whole runs. */
module MigrationTicks {
  import opened Common
  import opened StoreModel
  import opened SyncModel
  import opened Coverage
  import opened Migration
  import opened MigrationSteps
  import opened MigrationCalls

  /** Dropping runs loses nothing of the others. */
  lemma FewerRuns(s: State, sync': map<NodeId, SyncState>)
    requires RunsInv(s.id, s.slot, s.next, s.sync, s.net, s.peers)
    requires forall n :: n in sync' ==> n in s.sync && sync'[n] == s.sync[n]
    ensures RunsInv(s.id, s.slot, s.next, sync', s.net, s.peers)
  {
  }

  lemma BeginStep(s: State, connected: set<NodeId>, targets: set<NodeId>)
    requires Inv(s) && s.pc.Idle?
    ensures Inv(AfterBegin(s, connected, targets))
  {
    var s' := AfterBegin(s, connected, targets);
    FewerRuns(s, s'.sync);
    SameHistory(s.slot, s.log, s.sync, s.pc, s'.sync, s'.pc);
  }

  lemma ServePc(s: State, n: NodeId, timedOut: bool)
    requires s.pc.Ticking?
    requires n in s.sync ==> n in s.net && RunInv(s.id, s.slot, s.next, s.sync[n], s.net[n], PeerOf(s.peers, n).high)
    ensures var s' := AfterServe(s, n, timedOut); PcInv(s'.pc, s'.slot, s'.next, s'.sync, s'.net, s'.peers)
  {
  }

  lemma ServeCalm(s: State, n: NodeId, timedOut: bool)
    requires s.pc.Ticking? && n in s.pc.todo && CalmInv(s.tick, s.pc, s.slot, s.sync, s.declared)
    ensures var s' := AfterServe(s, n, timedOut); CalmInv(s'.tick, s'.pc, s'.slot, s'.sync, s'.declared)
  {
    var s' := AfterServe(s, n, timedOut);
    if s.tick.calm {
      forall o | o in s'.tick.targets
        ensures o in Awaiting(s'.pc) || Served(s'.tick, s'.slot, s'.sync, s'.declared, o)
      {
        assert o in Awaiting(s.pc) || Served(s.tick, s.slot, s.sync, s.declared, o);
      }
    }
  }

  lemma ServeStep(s: State, n: NodeId, timedOut: bool)
    requires Inv(s) && s.pc.Ticking? && n in s.pc.todo
    ensures Inv(AfterServe(s, n, timedOut))
  {
    ServePc(s, n, timedOut);
    ServeCalm(s, n, timedOut);
  }

  lemma RecipientsCalm(s: State, through: nat)
    requires s.pc == Ticking({}) && CalmInv(s.tick, s.pc, s.slot, s.sync, s.declared)
    ensures var s' := AfterRecipients(s, through); CalmInv(s'.tick, s'.pc, s'.slot, s'.sync, s'.declared)
  {
    var s' := AfterRecipients(s, through);
    if s.tick.calm {
      forall o | o in s'.tick.targets ensures Served(s'.tick, s'.slot, s'.sync, s'.declared, o) {
        assert Served(s.tick, s.slot, s.sync, s.declared, o);
      }
    }
  }

  lemma RecipientsStep(s: State, through: nat)
    requires Inv(s) && s.pc == Ticking({})
    requires Unconfirmed(s.sync) != map[] ==> IsLeastCursor(Unconfirmed(s.sync), through)
    ensures Inv(AfterRecipients(s, through))
  {
    var s' := AfterRecipients(s, through);
    FewerRuns(s, s'.sync);
    SameHistory(s.slot, s.log, s.sync, s.pc, s'.sync, s'.pc);
    RecipientsCalm(s, through);
  }

  lemma ChooseStep(s: State)
    requires Inv(s) && s.pc.Choosing?
    ensures Inv(AfterChoose(s))
  {
    assert AfterChoose(s).sync == map[];
  }

  lemma PrunedFollows(slot: Slot, next: nat, through: nat)
    ensures Follows(slot, next, Pruned(slot, through), next, through)
  {
    assert Records(Pruned(slot, through)) == Records(slot);
  }

  lemma PruneStore(id: PartitionId, slot: Slot, next: nat, issued: set<nat>, log: map<nat, Key>, through: nat)
    requires StoreInv(id, slot, next, issued, log)
    ensures StoreInv(id, Pruned(slot, through), next, issued, log)
  {
    assert Records(Pruned(slot, through)) == Records(slot);
    assert forall r :: r in Changes(Pruned(slot, through)) ==> r in Changes(slot);
  }

  lemma PruneHistory(slot: Slot, log: map<nat, Key>, sync: map<NodeId, SyncState>, pc: Pc, through: nat)
    requires HistoryInv(slot, log, sync, pc)
    requires forall n :: n in sync ==> through <= Cursor(sync[n])
    ensures HistoryInv(Pruned(slot, through), log, sync, Cleaning)
  {
    forall n | n in sync ensures Retained(Pruned(slot, through), log, Cursor(sync[n])) {
      assert Retained(slot, log, Cursor(sync[n]));
    }
  }

  lemma PruneCalm(s: State)
    requires s.pc.Pruning? && CalmInv(s.tick, s.pc, s.slot, s.sync, s.declared)
    ensures CalmInv(s.tick, Cleaning, Pruned(s.slot, s.pc.through), s.sync, s.declared)
  {
    assert Records(Pruned(s.slot, s.pc.through)) == Records(s.slot);
    if s.tick.calm {
      forall o | o in s.tick.targets ensures Served(s.tick, Pruned(s.slot, s.pc.through), s.sync, s.declared, o) {
        assert Served(s.tick, s.slot, s.sync, s.declared, o);
      }
    }
  }

  lemma PruneStep(s: State)
    requires Inv(s) && s.pc.Pruning?
    ensures Inv(AfterPrune(s))
  {
    PrunedFollows(s.slot, s.next, s.pc.through);
    RunsFollow(s, Pruned(s.slot, s.pc.through), s.next, s.pc.through);
    PruneStore(s.id, s.slot, s.next, s.issued, s.log, s.pc.through);
    PruneHistory(s.slot, s.log, s.sync, s.pc, s.pc.through);
    PruneCalm(s);
  }

  lemma CleanStep(s: State, owned: bool)
    requires Inv(s) && s.pc.Cleaning?
    ensures Inv(AfterClean(s, owned))
  {
    if Erases(s, owned) {
      assert s.sync == map[];
    }
  }

  // -------------------------------------------------------------------- whole runs

  predicate OfExpiry(e: Event) {
    e.ExpiryEnters? || e.ExpiryRemoves? || e.ExpiryNumbers? || e.ExpiryLeaves?
  }

  lemma ExpiryEvent(s: State, e: Event)
    requires StoreInv(s.id, s.slot, s.next, s.issued, s.log) && Enabled(s, e) && OfExpiry(e)
    ensures StaysOutside(s, Apply(s, e))
  {
    match e
    case ExpiryEnters => ExpiryIsOutside(s, 0);
    case ExpiryRemoves(k) => ExpiryIsOutside(s, k);
    case ExpiryNumbers => NumberIsOutside(s);
    case ExpiryLeaves(revision) => ExpiryLeavesIsOutside(s, revision);
  }

  lemma WriteEvent(s: State, e: Event)
    requires StoreInv(s.id, s.slot, s.next, s.issued, s.log) && Enabled(s, e) && e.Write?
    ensures StaysOutside(s, Apply(s, e))
  {
    WriteIsOutside(s, e.k, e.m);
  }

  lemma DropEvent(s: State, e: Event)
    requires StoreInv(s.id, s.slot, s.next, s.issued, s.log) && Enabled(s, e) && e.DropEmpty?
    ensures StaysOutside(s, Apply(s, e))
  {
    DropIsOutside(s);
  }

  lemma OutsideEvent(s: State, e: Event)
    requires Inv(s) && Enabled(s, e)
    requires OfExpiry(e) || e.Write? || e.DropEmpty? || e.WriteElsewhere?
    ensures Inv(Apply(s, e))
  {
    if OfExpiry(e) {
      ExpiryEvent(s, e);
    } else if e.Write? {
      WriteEvent(s, e);
    } else if e.DropEmpty? {
      DropEvent(s, e);
    } else {
      ElsewhereIsOutside(s);
    }
    OutsideKeepsInv(s, Apply(s, e));
  }

  predicate OfService(e: Event) {
    e.BeginTick? || e.Serve? || e.StoreCall? || e.EndRecipients? || e.Choose? || e.Prune? || e.Clean?
  }

  lemma ServiceEvent(s: State, e: Event)
    requires Inv(s) && Enabled(s, e) && OfService(e)
    ensures Inv(Apply(s, e))
  {
    match e
    case BeginTick(connected, targets) => BeginStep(s, connected, targets);
    case Serve(n, timedOut) => ServeStep(s, n, timedOut);
    case StoreCall => StoreCallStep(s);
    case EndRecipients(through) => RecipientsStep(s, through);
    case Choose => ChooseStep(s);
    case Prune => PruneStep(s);
    case Clean(owned) => CleanStep(s, owned);
  }

  predicate OfNetwork(e: Event) {
    e.Acknowledge? || e.Deliver? || e.PeerWrite? || e.PeerExpire?
  }

  lemma NetworkEvent(s: State, e: Event)
    requires Inv(s) && Enabled(s, e) && OfNetwork(e)
    ensures Inv(Apply(s, e))
  {
    match e
    case Acknowledge(n, i, reply) => AcknowledgeStep(s, n, i, reply);
    case Deliver(n, i) => DeliverStep(s, n, i);
    case PeerWrite(n, k, m) => PeerWriteStep(s, n, k, m);
    case PeerExpire(n, k) => PeerExpireStep(s, n, k);
  }

  lemma StepKeepsInv(s: State, e: Event)
    requires Inv(s) && Enabled(s, e)
    ensures Inv(Apply(s, e))
  {
    if OfService(e) {
      ServiceEvent(s, e);
    } else if OfNetwork(e) {
      NetworkEvent(s, e);
    } else {
      OutsideEvent(s, e);
    }
  }

  lemma {:induction false} RunKeepsInv(s: State, events: seq<Event>)
    requires Inv(s) && Legal(s, events)
    ensures Inv(After(s, events))
    decreases |events|
  {
    if events != [] {
      StepKeepsInv(s, events[0]);
      RunKeepsInv(Apply(s, events[0]), events[1..]);
    }
  }

  lemma InitHoldsInv(s: State)
    requires Init(s)
    ensures Inv(s)
  {
  }
}
