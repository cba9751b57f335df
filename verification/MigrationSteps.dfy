/** Every step of a migration keeps its invariants. */
module MigrationSteps {
  import opened Common
  import opened StoreModel
  import opened SyncModel
  import opened Coverage
  import opened Migration

  // ------------------------------------------------- the partition moves under a run

  lemma RunFollows(
      id: PartitionId, slot: Slot, next: nat, slot': Slot, next': nat, floor: nat,
      st: SyncState, net: Net, high: map<Key, nat>)
    requires RunInv(id, slot, next, st, net, high)
    requires Follows(slot, next, slot', next', floor) && floor <= Cursor(st)
    ensures RunInv(id, slot', next', st, net, high)
  {
    match st.phase
    case Snapshot(r) =>
      if net.clean {
        HeldUpToFollows(slot, next, slot', next', floor, high, Bound(st.prevMaxKey), r);
        if st.confirmed {
          HeldUpToFollows(slot, next, slot', next', floor, high, st.currMaxKey, r);
        }
        forall i | i in net.good ensures Covers(slot', high, r, net.sent[i]) {
          CoversFollows(slot, next, slot', next', floor, high, r, net.sent[i]);
        }
      }
    case Changing(c, p) =>
      if net.clean {
        SettledFollows(slot, next, slot', next', floor, high, c);
        forall i | i in net.good ensures Carries(slot', high, p, net.sent[i]) {
          CarriesFollows(slot, next, slot', next', floor, high, p, net.sent[i]);
        }
        if st.confirmed {
          SettledFollows(slot, next, slot', next', floor, high, p);
        }
      }
  }

  lemma RunsFollow(s: State, slot': Slot, next': nat, floor: nat)
    requires RunsInv(s.id, s.slot, s.next, s.sync, s.net, s.peers)
    requires Follows(s.slot, s.next, slot', next', floor)
    requires forall n :: n in s.sync ==> floor <= Cursor(s.sync[n])
    ensures RunsInv(s.id, slot', next', s.sync, s.net, s.peers)
  {
    forall n | n in s.sync ensures n in s.net && RunInv(s.id, slot', next', s.sync[n], s.net[n], PeerOf(s.peers, n).high) {
      RunFollows(s.id, s.slot, s.next, slot', next', floor, s.sync[n], s.net[n], PeerOf(s.peers, n).high);
    }
  }

  lemma JobFollows(
      slot: Slot, next: nat, slot': Slot, next': nat,
      job: Job, seen: map<Key, Mutation>, state: Option<SyncState>, clean: bool, high: map<Key, nat>)
    requires JobInv(slot, next, job, seen, state, clean, high)
    requires Follows(slot, next, slot', next', 0)
    ensures JobInv(slot', next', job, seen, state, clean, high)
  {
    if clean && job.Draining? {
      SettledFollows(slot, next, slot', next', 0, high, job.cursor);
    } else if clean && job.Redraining? {
      SettledFollows(slot, next, slot', next', 0, high, job.cursor);
    }
  }

  lemma PcFollows(s: State, slot': Slot, next': nat)
    requires PcInv(s.pc, s.slot, s.next, s.sync, s.net, s.peers)
    requires Follows(s.slot, s.next, slot', next', 0)
    ensures PcInv(s.pc, slot', next', s.sync, s.net, s.peers)
  {
    if s.pc.Serving? {
      var n := s.pc.n;
      JobFollows(s.slot, s.next, slot', next', s.pc.job, s.pc.seen, StateOf(s.sync, n),
                 n in s.net && s.net[n].clean, PeerOf(s.peers, n).high);
    }
  }

  /** Steps of clients, expiry and other partitions leave the service loop and the
      network alone, and what they change of the partition is journaled. */
  /** A published revision stays unique: nothing is stored at it later that was not. */
  ghost predicate KeepsRevision(s: State, s': State, r: nat) {
    r <= s.next && r !in s.issued ==>
      r <= s'.next && r !in s'.issued && (EmptyAt(s.slot, r) ==> EmptyAt(s'.slot, r))
  }

  ghost predicate Outside(s: State, s': State) {
    && s' == s.(slot := s'.slot, next := s'.next, issued := s'.issued, log := s'.log, tick := s'.tick)
    && (s'.tick == s.tick.(calm := false) || (s'.tick == s.tick && s'.slot == s.slot))
    && Follows(s.slot, s.next, s'.slot, s'.next, 0)
    && (forall r :: r in s'.log ==>
          r in Changes(s'.slot) || (r in s.log && r !in Changes(s.slot)))
    && (forall r: nat :: KeepsRevision(s, s', r))
  }

  lemma OutsideKeepsHistory(s: State, s': State)
    requires HistoryInv(s.slot, s.log, s.sync, s.pc) && Outside(s, s')
    ensures HistoryInv(s'.slot, s'.log, s'.sync, s'.pc)
  {
    forall cursor: nat | Retained(s.slot, s.log, cursor) ensures Retained(s'.slot, s'.log, cursor) {
    }
  }

  lemma OutsideKeepsInv(s: State, s': State)
    requires Inv(s) && Outside(s, s') && StoreInv(s'.id, s'.slot, s'.next, s'.issued, s'.log)
    ensures Inv(s')
  {
    RunsFollow(s, s'.slot, s'.next, 0);
    PcFollows(s, s'.slot, s'.next);
    OutsideKeepsHistory(s, s');
    if s.pc.Serving? && (s.pc.job.Starting? || s.pc.job.StartedEmpty?) {
      assert KeepsRevision(s, s', s.pc.job.revision);
    }
    assert CalmInv(s'.tick, s'.pc, s'.slot, s'.sync, s'.declared);
  }

  lemma WriteFollows(slot: Slot, next: nat, k: Key, m: Mutation)
    requires forall r :: r in Changes(slot) ==> r <= next
    ensures Follows(slot, next, Written(slot, next, k, m), next + 1, 0)
  {
    var slot' := Written(slot, next, k, m);
    assert Changes(slot') == Changes(slot)[next + 1 := k];
    assert next + 1 in Changes(slot') && Changes(slot')[next + 1] == k;
    assert Journaled(slot', k, next);
  }

  ghost predicate StaysOutside(s: State, s': State) {
    StoreInv(s'.id, s'.slot, s'.next, s'.issued, s'.log) && Outside(s, s')
  }

  lemma WriteKeepsStore(id: PartitionId, slot: Slot, next: nat, issued: set<nat>, log: map<nat, Key>, k: Key, m: Mutation)
    requires StoreInv(id, slot, next, issued, log) && PartitionOf(k) == id && !Busy(slot)
    ensures StoreInv(id, Written(slot, next, k, m), next + 1, issued, log[next + 1 := k])
  {
    var slot' := Written(slot, next, k, m);
    var log' := log[next + 1 := k];
    assert issued == {};
    assert forall j :: j in Records(slot') ==> j == k || j in Records(slot);
    assert forall r :: r in log' ==> r == next + 1 || r in log;
    assert Changes(slot') == Changes(slot)[next + 1 := k];
  }

  lemma WriteIsLogged(slot: Slot, next: nat, log: map<nat, Key>, k: Key, m: Mutation)
    ensures forall r :: r in log[next + 1 := k] ==>
      r in Changes(Written(slot, next, k, m)) || (r in log && r !in Changes(slot))
  {
    assert Changes(Written(slot, next, k, m)) == Changes(slot)[next + 1 := k];
  }

  lemma JournalBelow(id: PartitionId, slot: Slot, next: nat, issued: set<nat>, log: map<nat, Key>)
    requires StoreInv(id, slot, next, issued, log)
    ensures forall r :: r in Changes(slot) ==> r <= next
  {
  }

  lemma WrittenOutside(s: State, k: Key, m: Mutation)
    requires forall r :: r in Changes(s.slot) ==> r <= s.next
    ensures Outside(s, AfterWrite(s, k, m))
  {
    WriteFollows(s.slot, s.next, k, m);
    WriteIsLogged(s.slot, s.next, s.log, k, m);
  }

  lemma WriteIsOutside(s: State, k: Key, m: Mutation)
    requires StoreInv(s.id, s.slot, s.next, s.issued, s.log) && PartitionOf(k) == s.id && !Busy(s.slot)
    ensures StaysOutside(s, AfterWrite(s, k, m))
  {
    WriteKeepsStore(s.id, s.slot, s.next, s.issued, s.log, k, m);
    JournalBelow(s.id, s.slot, s.next, s.issued, s.log);
    WrittenOutside(s, k, m);
  }

  lemma ExpiryIsOutside(s: State, k: Key)
    requires StoreInv(s.id, s.slot, s.next, s.issued, s.log) && s.slot.Some?
    ensures StaysOutside(s, AfterExpiryEnters(s))
    ensures StaysOutside(s, AfterExpiryRemoves(s, k))
  {
    assert Changes(AfterExpiryEnters(s).slot) == Changes(s.slot);
    assert Changes(AfterExpiryRemoves(s, k).slot) == Changes(s.slot);
  }

  lemma ExpiryLeavesIsOutside(s: State, revision: nat)
    requires StoreInv(s.id, s.slot, s.next, s.issued, s.log) && Busy(s.slot) && revision in s.issued
    ensures StaysOutside(s, AfterExpiryLeaves(s, revision))
  {
    assert |s.issued - {revision}| == |s.issued| - 1;
  }

  lemma ElsewhereIsOutside(s: State)
    requires StoreInv(s.id, s.slot, s.next, s.issued, s.log)
    ensures StaysOutside(s, s.(next := s.next + 1))
  {
  }

  lemma NumberIsOutside(s: State)
    requires StoreInv(s.id, s.slot, s.next, s.issued, s.log) && s.slot.Some? && |s.issued| < s.slot.value.activeWriters
    ensures StaysOutside(s, AfterExpiryNumbers(s))
  {
    assert |s.issued + {s.next + 1}| <= |s.issued| + 1;
  }

  lemma DropIsOutside(s: State)
    requires StoreInv(s.id, s.slot, s.next, s.issued, s.log) && s.slot.Some? && !Busy(s.slot) && Records(s.slot) == map[]
    ensures StaysOutside(s, AfterDrop(s))
  {
    assert |s.issued| == 0;
  }

  // ------------------------------------------------------------------ the network

  lemma {:induction false} AbsorbApplies(peer: Peer, batch: seq<Wire>)
    requires PeerInv(peer)
    ensures Grows(peer.high, Absorb(peer, batch).high)
    ensures BatchApplied(Absorb(peer, batch).high, batch)
    ensures PeerInv(Absorb(peer, batch))
    decreases |batch|
  {
    if batch != [] {
      var first := TakeIn(peer, batch[0]);
      AbsorbApplies(first, batch[1..]);
      var high' := Absorb(peer, batch).high;
      forall i | 0 <= i < |batch| ensures Applied(high', batch[i].key, batch[i].creationTimeMs) {
        if i > 0 {
          assert batch[i] == batch[1..][i - 1];
        } else {
          assert Applied(first.high, batch[0].key, batch[0].creationTimeMs);
        }
      }
    }
  }

  lemma NetGrows(id: PartitionId, net: Net, high: map<Key, nat>, high': map<Key, nat>)
    requires NetInv(id, net, high) && Grows(high, high')
    ensures NetInv(id, net, high')
  {
    forall i | i in net.applied ensures BatchApplied(high', net.sent[i]) {
      assert BatchApplied(high, net.sent[i]);
    }
  }

  lemma RunGrows(id: PartitionId, slot: Slot, next: nat, st: SyncState, net: Net, high: map<Key, nat>, high': map<Key, nat>)
    requires RunInv(id, slot, next, st, net, high) && Grows(high, high')
    ensures RunInv(id, slot, next, st, net, high')
  {
    assert forall k, r: nat :: k in Records(slot) && Held(slot, high, k, r) ==> Held(slot, high', k, r);
    NetGrows(id, net, high, high');
    if net.clean {
      forall i | i in net.good
        ensures st.phase.Snapshot? ==> Covers(slot, high', st.phase.revision, net.sent[i])
        ensures st.phase.Changing? ==> Carries(slot, high', st.phase.pendingRevision, net.sent[i])
      {
        assert i < |net.sent|;
      }
    }
  }

  ghost predicate AllGrow(peers: map<NodeId, Peer>, peers': map<NodeId, Peer>) {
    forall n :: Grows(PeerOf(peers, n).high, PeerOf(peers', n).high)
  }

  lemma RunsGrow(s: State, peers': map<NodeId, Peer>)
    requires RunsInv(s.id, s.slot, s.next, s.sync, s.net, s.peers) && AllGrow(s.peers, peers')
    ensures RunsInv(s.id, s.slot, s.next, s.sync, s.net, peers')
  {
    forall n | n in s.sync ensures n in s.net && RunInv(s.id, s.slot, s.next, s.sync[n], s.net[n], PeerOf(peers', n).high) {
      RunGrows(s.id, s.slot, s.next, s.sync[n], s.net[n], PeerOf(s.peers, n).high, PeerOf(peers', n).high);
    }
  }

  lemma NetsGrow(s: State, peers': map<NodeId, Peer>)
    requires NetsInv(s.id, s.net, s.peers) && AllGrow(s.peers, peers')
    ensures NetsInv(s.id, s.net, peers')
  {
    forall n | n in s.net ensures NetInv(s.id, s.net[n], PeerOf(peers', n).high) {
      NetGrows(s.id, s.net[n], PeerOf(s.peers, n).high, PeerOf(peers', n).high);
    }
  }

  lemma PcGrows(s: State, peers': map<NodeId, Peer>)
    requires PcInv(s.pc, s.slot, s.next, s.sync, s.net, s.peers) && AllGrow(s.peers, peers')
    ensures PcInv(s.pc, s.slot, s.next, s.sync, s.net, peers')
  {
    if s.pc.Serving? {
      assert Grows(PeerOf(s.peers, s.pc.n).high, PeerOf(peers', s.pc.n).high);
    }
  }

  lemma DeclaredGrows(declared: set<(NodeId, map<Key, Mutation>)>, peers: map<NodeId, Peer>, peers': map<NodeId, Peer>)
    requires DeclaredInv(declared, peers) && AllGrow(peers, peers')
    ensures DeclaredInv(declared, peers')
  {
    forall d | d in declared ensures Dominates(PeerOf(peers', d.0).high, d.1) {
      assert Grows(PeerOf(peers, d.0).high, PeerOf(peers', d.0).high);
    }
  }

  /** What a recipient learns only helps the runs towards it. */
  lemma PeersGrow(s: State, s': State)
    requires Inv(s)
    requires s' == s.(peers := s'.peers) && AllGrow(s.peers, s'.peers) && PeersInv(s'.peers)
    ensures Inv(s')
  {
    RunsGrow(s, s'.peers);
    NetsGrow(s, s'.peers);
    PcGrows(s, s'.peers);
    DeclaredGrows(s.declared, s.peers, s'.peers);
  }

  lemma PeersReplace(peers: map<NodeId, Peer>, n: NodeId, peer: Peer)
    requires PeersInv(peers) && PeerInv(peer) && Grows(PeerOf(peers, n).high, peer.high)
    ensures PeersInv(peers[n := peer]) && AllGrow(peers, peers[n := peer])
  {
  }

  lemma PeerWriteStep(s: State, n: NodeId, k: Key, m: Mutation)
    requires Inv(s)
    ensures Inv(AfterPeerWrite(s, n, k, m))
  {
    var s' := AfterPeerWrite(s, n, k, m);
    assert PeerInv(PeerOf(s.peers, n));
    PeersReplace(s.peers, n, PeerOf(s'.peers, n));
    PeersGrow(s, s');
  }

  lemma PeerExpireStep(s: State, n: NodeId, k: Key)
    requires Inv(s)
    ensures Inv(AfterPeerExpire(s, n, k))
  {
    var s' := AfterPeerExpire(s, n, k);
    assert PeerInv(PeerOf(s.peers, n));
    PeersReplace(s.peers, n, PeerOf(s'.peers, n));
    PeersGrow(s, s');
  }

  lemma DeliveredRun(id: PartitionId, slot: Slot, next: nat, st: SyncState, net: Net, high: map<Key, nat>, i: nat)
    requires RunInv(id, slot, next, st, net, high)
    requires i < |net.sent| && BatchApplied(high, net.sent[i])
    ensures RunInv(id, slot, next, st, net.(applied := net.applied + {i}), high)
  {
  }

  lemma DeliveredRuns(s: State, n: NodeId, i: nat)
    requires RunsInv(s.id, s.slot, s.next, s.sync, s.net, s.peers)
    requires n in s.net && i < |s.net[n].sent| && BatchApplied(PeerOf(s.peers, n).high, s.net[n].sent[i])
    ensures RunsInv(s.id, s.slot, s.next, s.sync, s.net[n := s.net[n].(applied := s.net[n].applied + {i})], s.peers)
  {
    var net' := s.net[n].(applied := s.net[n].applied + {i});
    if n in s.sync {
      DeliveredRun(s.id, s.slot, s.next, s.sync[n], s.net[n], PeerOf(s.peers, n).high, i);
      RunsReplace(s.id, s.slot, s.next, s.sync, s.net, s.peers, n, s.sync[n], net');
      assert s.sync[n := s.sync[n]] == s.sync;
    } else {
      RunsElsewhere(s.id, s.slot, s.next, s.sync, s.net, s.peers, n, net');
    }
  }

  lemma DeliveredNets(id: PartitionId, net: map<NodeId, Net>, peers: map<NodeId, Peer>, n: NodeId, i: nat)
    requires NetsInv(id, net, peers)
    requires n in net && i < |net[n].sent| && BatchApplied(PeerOf(peers, n).high, net[n].sent[i])
    ensures NetsInv(id, net[n := net[n].(applied := net[n].applied + {i})], peers)
  {
    assert NetInv(id, net[n], PeerOf(peers, n).high);
    assert NetInv(id, net[n].(applied := net[n].applied + {i}), PeerOf(peers, n).high);
  }

  lemma DeliverMarks(s: State, s': State, n: NodeId, i: nat)
    requires Inv(s) && n in s.net && i < |s.net[n].sent| && BatchApplied(PeerOf(s.peers, n).high, s.net[n].sent[i])
    requires s' == s.(net := s.net[n := s.net[n].(applied := s.net[n].applied + {i})])
    ensures Inv(s')
  {
    DeliveredRuns(s, n, i);
    DeliveredNets(s.id, s.net, s.peers, n, i);
    SamePc(s, s'.net);
  }

  lemma SamePc(s: State, net': map<NodeId, Net>)
    requires PcInv(s.pc, s.slot, s.next, s.sync, s.net, s.peers)
    requires s.pc.Serving? ==> (s.pc.n in net' && net'[s.pc.n].clean ==> s.pc.n in s.net && s.net[s.pc.n].clean)
    ensures PcInv(s.pc, s.slot, s.next, s.sync, net', s.peers)
  {
  }

  lemma DeliverStep(s: State, n: NodeId, i: nat)
    requires Inv(s) && n in s.net && i < |s.net[n].sent|
    ensures Inv(AfterDeliver(s, n, i))
  {
    var batch := s.net[n].sent[i];
    var peers' := s.peers[n := Absorb(PeerOf(s.peers, n), batch)];
    AbsorbApplies(PeerOf(s.peers, n), batch);
    PeersReplace(s.peers, n, Absorb(PeerOf(s.peers, n), batch));
    PeersGrow(s, s.(peers := peers'));
    DeliverMarks(s.(peers := peers'), AfterDeliver(s, n, i), n, i);
  }

  /** The acknowledgement of a batch that the step relies on confirms it soundly. */
  lemma ConfirmedRun(id: PartitionId, slot: Slot, next: nat, st: SyncState, net: Net, high: map<Key, nat>, i: nat)
    requires RunInv(id, slot, next, st, net, high)
    requires i in net.applied && st.currMaxKey == MaxKey(net.sent[i])
    ensures RunInv(id, slot, next, st.(confirmed := true), net.(clean := net.clean && i in net.good), high)
  {
    var batch := net.sent[i];
    if net.clean && i in net.good {
      match st.phase
      case Snapshot(r) =>
        assert Covers(slot, high, r, batch);
        forall k | k in Records(slot) && k <= st.currMaxKey ensures Held(slot, high, k, r) {
          AppliedSettles(slot, high, r, batch, k);
        }
      case Changing(c, p) =>
        assert Carries(slot, high, p, batch);
        forall k | k in Records(slot) ensures Held(slot, high, k, p) {
          AppliedSettles(slot, high, p, batch, k);
        }
    }
  }

  lemma TakenRun(id: PartitionId, slot: Slot, next: nat, st: SyncState, net: Net, high: map<Key, nat>, i: nat)
    requires RunInv(id, slot, next, st, net, high)
    ensures RunInv(id, slot, next, st, net.(taken := net.taken + {i}), high)
  {
  }

  lemma AcknowledgedRun(s: State, n: NodeId, i: nat, reply: map<PartitionId, Key>)
    requires n in s.sync && n in s.net
    requires RunInv(s.id, s.slot, s.next, s.sync[n], s.net[n], PeerOf(s.peers, n).high)
    requires i in s.net[n].applied && i < |s.net[n].sent| && reply == map[s.id := MaxKey(s.net[n].sent[i])]
    ensures var s' := AfterAcknowledge(s, n, i, reply);
      && n in s'.sync && n in s'.net
      && RunInv(s.id, s.slot, s.next, s'.sync[n], s'.net[n], PeerOf(s.peers, n).high)
  {
    var st, net, high := s.sync[n], s.net[n].(taken := s.net[n].taken + {i}), PeerOf(s.peers, n).high;
    TakenRun(s.id, s.slot, s.next, st, s.net[n], high, i);
    if st.currMaxKey == MaxKey(net.sent[i]) && !st.confirmed {
      ConfirmedRun(s.id, s.slot, s.next, st, net, high, i);
    }
  }

  /** Cursors that only move up need no more history than before. */
  lemma SameHistory(slot: Slot, log: map<nat, Key>, sync: map<NodeId, SyncState>, pc: Pc, sync': map<NodeId, SyncState>, pc': Pc)
    requires HistoryInv(slot, log, sync, pc)
    requires forall m :: m in sync' ==> m in sync && Cursor(sync[m]) <= Cursor(sync'[m])
    requires pc'.Serving? && pc'.job.Starting? ==> Retained(slot, log, pc'.job.revision)
    ensures HistoryInv(slot, log, sync', pc')
  {
    forall m | m in sync' ensures Retained(slot, log, Cursor(sync'[m])) {
      assert Retained(slot, log, Cursor(sync[m]));
    }
  }

  lemma AcknowledgeShape(s: State, n: NodeId, i: nat, reply: map<PartitionId, Key>)
    requires n in s.net && i < |s.net[n].sent|
    ensures var s' := AfterAcknowledge(s, n, i, reply);
      && s' == s.(sync := s'.sync, net := s'.net)
      && s'.sync.Keys == s.sync.Keys && (forall m :: m in s'.sync ==> Cursor(s'.sync[m]) == Cursor(s.sync[m]))
  {
  }

  /** Whatever was sent, however long ago, is answered with this partition alone. */
  lemma RepliesName(s: State, n: NodeId, i: nat, reply: map<PartitionId, Key>)
    requires NetsInv(s.id, s.net, s.peers) && n in s.net
    requires i < |s.net[n].sent| && IsReply(s.net[n].sent[i], reply)
    ensures s.net[n].sent[i] != [] && reply == map[s.id := MaxKey(s.net[n].sent[i])]
  {
    assert NetInv(s.id, s.net[n], PeerOf(s.peers, n).high);
    ReplyNamesOnePartition(s.id, s.net[n].sent[i], reply);
  }

  lemma RunsReplace(
      id: PartitionId, slot: Slot, next: nat, sync: map<NodeId, SyncState>, net: map<NodeId, Net>, peers: map<NodeId, Peer>,
      n: NodeId, st: SyncState, net': Net)
    requires RunsInv(id, slot, next, sync, net, peers) && RunInv(id, slot, next, st, net', PeerOf(peers, n).high)
    ensures RunsInv(id, slot, next, sync[n := st], net[n := net'], peers)
  {
  }

  lemma RunsElsewhere(
      id: PartitionId, slot: Slot, next: nat, sync: map<NodeId, SyncState>, net: map<NodeId, Net>, peers: map<NodeId, Peer>,
      n: NodeId, net': Net)
    requires RunsInv(id, slot, next, sync, net, peers) && n !in sync
    ensures RunsInv(id, slot, next, sync, net[n := net'], peers)
  {
  }

  lemma AcknowledgeRuns(s: State, n: NodeId, i: nat, reply: map<PartitionId, Key>)
    requires RunsInv(s.id, s.slot, s.next, s.sync, s.net, s.peers) && n in s.net
    requires i in s.net[n].applied && i < |s.net[n].sent| && s.net[n].sent[i] != []
    requires reply == map[s.id := MaxKey(s.net[n].sent[i])]
    ensures var s' := AfterAcknowledge(s, n, i, reply); RunsInv(s.id, s.slot, s.next, s'.sync, s'.net, s.peers)
  {
    var s' := AfterAcknowledge(s, n, i, reply);
    if n in s.sync {
      AcknowledgedRun(s, n, i, reply);
      RunsReplace(s.id, s.slot, s.next, s.sync, s.net, s.peers, n, s'.sync[n], s'.net[n]);
    } else {
      RunsElsewhere(s.id, s.slot, s.next, s.sync, s.net, s.peers, n, s'.net[n]);
    }
  }

  lemma AcknowledgeNets(s: State, n: NodeId, i: nat, reply: map<PartitionId, Key>)
    requires NetsInv(s.id, s.net, s.peers) && n in s.net && i < |s.net[n].sent|
    ensures NetsInv(s.id, AfterAcknowledge(s, n, i, reply).net, s.peers)
  {
    var net' := AfterAcknowledge(s, n, i, reply).net[n];
    assert NetInv(s.id, net', PeerOf(s.peers, n).high);
  }

  lemma AcknowledgeStep(s: State, n: NodeId, i: nat, reply: map<PartitionId, Key>)
    requires Inv(s) && s.pc.Idle? && n in s.net
    requires i in s.net[n].applied && i < |s.net[n].sent| && IsReply(s.net[n].sent[i], reply)
    ensures Inv(AfterAcknowledge(s, n, i, reply))
  {
    RepliesName(s, n, i, reply);
    AcknowledgeShape(s, n, i, reply);
    AcknowledgeRuns(s, n, i, reply);
    AcknowledgeNets(s, n, i, reply);
    var s' := AfterAcknowledge(s, n, i, reply);
    SameHistory(s.slot, s.log, s.sync, s.pc, s'.sync, s'.pc);
  }

  // ---------------------------------------------------------- the sender's store calls

  lemma EntriesIn(id: PartitionId, slot: Slot, entries: seq<(Key, Mutation)>)
    requires forall k :: k in Records(slot) ==> PartitionOf(k) == id
    requires forall i :: 0 <= i < |entries| ==> entries[i].0 in Records(slot)
    ensures BatchIn(id, ToWires(entries))
  {
    WiresAre(entries);
  }

  /** One more batch keeps what is known of the messages; the first needs nothing. */
  lemma NetPosted(id: PartitionId, net: Net, high: map<Key, nat>, batch: seq<Wire>, good: set<nat>)
    requires net == UNUSED || NetInv(id, net, high)
    requires batch != [] && BatchIn(id, batch)
    requires forall i :: i in good ==> i <= |net.sent|
    ensures NetInv(id, Posted(net, batch, good), high)
    ensures Last(Posted(net, batch, good)) == batch
  {
  }

  lemma PageIn(id: PartitionId, slot: Slot, after: Option<Key>)
    requires forall k :: k in Records(slot) ==> PartitionOf(k) == id
    ensures BatchIn(id, ToWires(RecordPage(slot, after, SYNC_BATCH_SIZE)))
  {
    RecordPageExact(slot, after, SYNC_BATCH_SIZE);
    EntriesIn(id, slot, RecordPage(slot, after, SYNC_BATCH_SIZE));
  }

  lemma LiveIn(id: PartitionId, slot: Slot, cursor: nat)
    requires forall k :: k in Records(slot) ==> PartitionOf(k) == id
    requires ChangePage(slot, cursor, SYNC_BATCH_SIZE).Some?
    ensures BatchIn(id, ToWires(ChangePage(slot, cursor, SYNC_BATCH_SIZE).value.1))
  {
    var live := ChangePage(slot, cursor, SYNC_BATCH_SIZE).value.1;
    forall i | 0 <= i < |live| ensures live[i].0 in Records(slot) {
      ChangePageStored(slot, cursor, SYNC_BATCH_SIZE, live[i]);
    }
    EntriesIn(id, slot, live);
  }

  lemma AllCoverMore(slot: Slot, high: map<Key, nat>, r: nat, net: Net, batch: seq<Wire>, good: set<nat>)
    requires forall i :: i in good ==> i == |net.sent| || (i in net.good && i < |net.sent|)
    requires good != {|net.sent|} ==> AllCover(slot, high, r, net)
    requires Covers(slot, high, r, batch)
    ensures AllCover(slot, high, r, Posted(net, batch, good))
  {
  }

  lemma AllCarryMore(slot: Slot, high: map<Key, nat>, r: nat, net: Net, batch: seq<Wire>, good: set<nat>)
    requires forall i :: i in good ==> i == |net.sent| || (i in net.good && i < |net.sent|)
    requires good != {|net.sent|} ==> AllCarry(slot, high, r, net)
    requires |net.sent| in good ==> Carries(slot, high, r, batch)
    ensures AllCarry(slot, high, r, Posted(net, batch, good))
  {
  }

  /** A run's first batch may be relied on, whatever was sent before the run. */
  lemma FirstRun(id: PartitionId, slot: Slot, next: nat, r: nat, high: map<Key, nat>, net: Net, batch: seq<Wire>, key: Key)
    requires net == UNUSED || NetInv(id, net, high)
    requires r <= next && Covers(slot, high, r, batch) && BatchIn(id, batch) && key == MaxKey(batch)
    ensures RunInv(id, slot, next, SyncState(None, key, Snapshot(r), false),
                   Posted(net.(clean := true), batch, {|net.sent|}), high)
  {
    assert net.(clean := true) == UNUSED || NetInv(id, net.(clean := true), high);
    NetPosted(id, net.(clean := true), high, batch, {|net.sent|});
    AllCoverMore(slot, high, r, net.(clean := true), batch, {|net.sent|});
    assert HeldUpTo(slot, high, -1, r);
  }

  lemma FirstPageCovers(slot: Slot, high: map<Key, nat>, r: nat)
    requires RecordPage(slot, None, SYNC_BATCH_SIZE) != []
    ensures var page := RecordPage(slot, None, SYNC_BATCH_SIZE);
      Covers(slot, high, r, ToWires(page)) && page[|page| - 1].0 == MaxKey(ToWires(page))
  {
    assert HeldUpTo(slot, high, -1, r);
    PageCovers(slot, high, r, None);
  }

  lemma StartedRun(id: PartitionId, slot: Slot, next: nat, r: nat, high: map<Key, nat>, net: Net)
    requires forall k :: k in Records(slot) ==> PartitionOf(k) == id
    requires net == UNUSED || NetInv(id, net, high)
    requires r <= next && RecordPage(slot, None, SYNC_BATCH_SIZE) != []
    ensures var page := RecordPage(slot, None, SYNC_BATCH_SIZE);
      RunInv(id, slot, next, SyncState(None, page[|page| - 1].0, Snapshot(r), false),
             Posted(net.(clean := true), ToWires(page), {|net.sent|}), high)
  {
    var page := RecordPage(slot, None, SYNC_BATCH_SIZE);
    PageIn(id, slot, None);
    FirstPageCovers(slot, high, r);
    FirstRun(id, slot, next, r, high, net, ToWires(page), page[|page| - 1].0);
  }

  lemma PagedSnapshot(slot: Slot, next: nat, st: SyncState, net: Net, high: map<Key, nat>, r: nat, after: Option<Key>, batch: seq<Wire>)
    requires SnapshotInv(slot, next, st, net, high, r)
    requires net.clean ==> HeldUpTo(slot, high, Bound(after), r) && Covers(slot, high, r, batch)
    requires batch != []
    ensures SnapshotInv(slot, next, SyncState(after, MaxKey(batch), Snapshot(r), false),
                        Posted(net, batch, net.good + {|net.sent|}), high, r)
  {
    if net.clean {
      AllCoverMore(slot, high, r, net, batch, net.good + {|net.sent|});
    } else {
      var i :| 0 <= i < |net.sent| && i !in net.good;
      assert i !in net.good + {|net.sent|};
    }
  }

  /** Sending the page after `after`, whether it is the next one or a repeated one. */
  lemma PagedRun(id: PartitionId, slot: Slot, next: nat, st: SyncState, net: Net, high: map<Key, nat>, after: Option<Key>)
    requires forall k :: k in Records(slot) ==> PartitionOf(k) == id
    requires RunInv(id, slot, next, st, net, high) && st.phase.Snapshot?
    requires net.clean ==> HeldUpTo(slot, high, Bound(after), st.phase.revision)
    requires RecordPage(slot, after, SYNC_BATCH_SIZE) != []
    ensures var page := RecordPage(slot, after, SYNC_BATCH_SIZE);
      RunInv(id, slot, next, SyncState(after, page[|page| - 1].0, st.phase, false),
             Posted(net, ToWires(page), net.good + {|net.sent|}), high)
  {
    var r := st.phase.revision;
    var batch := ToWires(RecordPage(slot, after, SYNC_BATCH_SIZE));
    PageIn(id, slot, after);
    NetPosted(id, net, high, batch, net.good + {|net.sent|});
    PageLast(slot, after);
    if net.clean {
      PageCovers(slot, high, r, after);
    }
    PagedSnapshot(slot, next, st, net, high, r, after, batch);
  }

  /** Sending a new stretch of the journal. */
  lemma DrainedRun(
      id: PartitionId, slot: Slot, next: nat, st: SyncState, net: Net, high: map<Key, nat>, from: nat, cursor: nat)
    requires forall k :: k in Records(slot) ==> PartitionOf(k) == id
    requires RunInv(id, slot, next, st, net, high)
    requires net.clean ==> Settled(slot, high, cursor)
    requires ChangePage(slot, cursor, SYNC_BATCH_SIZE).Some?
    requires ChangePage(slot, cursor, SYNC_BATCH_SIZE).value.1 != []
    requires from <= cursor && from <= ChangePage(slot, cursor, SYNC_BATCH_SIZE).value.0 <= next
    ensures var (last, live) := ChangePage(slot, cursor, SYNC_BATCH_SIZE).value;
      RunInv(id, slot, next, SyncState(None, MaxKey(ToWires(live)), Changing(from, last), false),
             Posted(net, ToWires(live), {|net.sent|}), high)
  {
    var (last, live) := ChangePage(slot, cursor, SYNC_BATCH_SIZE).value;
    var batch := ToWires(live);
    LiveIn(id, slot, cursor);
    NetPosted(id, net, high, batch, {|net.sent|});
    if net.clean {
      SettledLower(slot, high, cursor, from);
      ChangesCarry(slot, high, cursor);
      AllCarryMore(slot, high, last, net, batch, {|net.sent|});
    }
  }

  /** Repeating a stretch of the journal: the new batch may be relied on beside the old
      ones if it reaches the revision being confirmed. */
  lemma RedrainedRun(
      id: PartitionId, slot: Slot, next: nat, st: SyncState, net: Net, high: map<Key, nat>, cursor: nat)
    requires forall k :: k in Records(slot) ==> PartitionOf(k) == id
    requires RunInv(id, slot, next, st, net, high) && st.phase.Changing?
    requires net.clean ==> Settled(slot, high, cursor)
    requires ChangePage(slot, cursor, SYNC_BATCH_SIZE).Some?
    requires ChangePage(slot, cursor, SYNC_BATCH_SIZE).value.1 != []
    ensures var (last, live) := ChangePage(slot, cursor, SYNC_BATCH_SIZE).value;
      var good := if st.phase.pendingRevision <= last then net.good + {|net.sent|} else net.good;
      RunInv(id, slot, next, SyncState(st.prevMaxKey, MaxKey(ToWires(live)), st.phase, false),
             Posted(net, ToWires(live), good), high)
  {
    var (last, live) := ChangePage(slot, cursor, SYNC_BATCH_SIZE).value;
    var batch, pending := ToWires(live), st.phase.pendingRevision;
    var good := if pending <= last then net.good + {|net.sent|} else net.good;
    LiveIn(id, slot, cursor);
    NetPosted(id, net, high, batch, good);
    if net.clean {
      if pending <= last {
        ChangesCarry(slot, high, cursor);
        CarriesLower(slot, high, last, pending, batch);
      }
      AllCarryMore(slot, high, pending, net, batch, good);
    }
  }
}
