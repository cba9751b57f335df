/** What a migration guarantees over every run, and where its guarantees end. */
module MigrationTheorems {
  import opened Common
  import opened StoreModel
  import opened SyncModel
  import opened Coverage
  import opened Migration
  import opened MigrationSteps
  import opened MigrationTicks

  /** The next store call declares the recipient's run complete. */
  ghost predicate Completes(s: State) {
    CanCall(s) && Advance(Local(s.pc.job, StateOf(s.sync, s.pc.n), None), s.slot).job == Finished(true)
  }

  /** The run being served has lost track of no acknowledgement. */
  ghost predicate CleanRun(s: State)
    requires s.pc.Serving?
  {
    s.pc.job.StartedEmpty? || (s.pc.n in s.net && s.net[s.pc.n].clean)
  }

  lemma CompletionFollowsScan(s: State)
    requires Completes(s)
    ensures s.pc.job.Settling? || s.pc.job.StartedEmpty?
  {
  }

  /** No writer is inside when completion is declared. */
  lemma CompletionFindsNoWriter(s: State)
    requires Completes(s)
    ensures !Busy(s.slot)
    ensures s.pc.job.StartedEmpty? ==> Stable(s.slot) == Some(s.pc.job.revision)
  {
  }

  /** A run that found nothing to send completes only if nothing is stored at that very
      moment, whatever was written, expired or re-created since it looked: the second
      look at the revision notices every write in between. */
  lemma EmptyStartsCompleteOnlyWhenEmpty(s0: State, events: seq<Event>)
    requires Init(s0) && Legal(s0, events)
    requires Completes(After(s0, events)) && After(s0, events).pc.job.StartedEmpty?
    ensures Records(After(s0, events).slot) == map[] && !Busy(After(s0, events).slot)
  {
    InitHoldsInv(s0);
    RunKeepsInv(s0, events);
    var s := After(s0, events);
    CompletionFindsNoWriter(s);
    assert EmptyAt(s.slot, s.pc.job.revision);
  }

  lemma ScannedIsApplied(s: State)
    requires Inv(s) && s.pc.Serving? && CleanRun(s) && (s.pc.job.Settling? || s.pc.job.StartedEmpty?)
    ensures Dominates(PeerOf(s.peers, s.pc.n).high, s.pc.seen) && PeerInv(PeerOf(s.peers, s.pc.n))
  {
  }

  lemma AppliedIsStored(peer: Peer, seen: map<Key, Mutation>, k: Key)
    requires PeerInv(peer) && Dominates(peer.high, seen) && k in seen && k !in peer.expired
    ensures k in peer.records && seen[k].Version() <= peer.records[k].Version()
  {
    assert Applied(peer.high, k, seen[k].Version());
  }

  /** Completion is safe: whatever clients, expiry, pruning, drops of the partition
      and the network did, a clean run is declared complete only when the recipient
      has applied, for every key the last scan found stored, a mutation at least as
      new; a recipient that has not expired the key itself still stores one. */
  lemma CompletionIsSafe(s0: State, events: seq<Event>)
    requires Init(s0) && Legal(s0, events)
    requires Completes(After(s0, events)) && CleanRun(After(s0, events))
    ensures var s := After(s0, events);
      var peer := PeerOf(s.peers, s.pc.n);
      && !Busy(s.slot)
      && Dominates(peer.high, s.pc.seen)
      && forall k :: k in s.pc.seen && k !in peer.expired ==>
           k in peer.records && s.pc.seen[k].Version() <= peer.records[k].Version()
  {
    var s := After(s0, events);
    InitHoldsInv(s0);
    RunKeepsInv(s0, events);
    CompletionFollowsScan(s);
    CompletionFindsNoWriter(s);
    ScannedIsApplied(s);
    var peer := PeerOf(s.peers, s.pc.n);
    forall k | k in s.pc.seen && k !in peer.expired
      ensures k in peer.records && s.pc.seen[k].Version() <= peer.records[k].Version()
    {
      AppliedIsStored(peer, s.pc.seen, k);
    }
  }

  /** ... and stays so: every completion ever declared by a clean run is still covered
      by what its recipient has applied, and the recipient still stores a version at
      least as new of every key it has not expired. */
  lemma DeclarationsStayTrue(s0: State, events: seq<Event>, n: NodeId, seen: map<Key, Mutation>)
    requires Init(s0) && Legal(s0, events) && (n, seen) in After(s0, events).declared
    ensures var peer := PeerOf(After(s0, events).peers, n);
      && Dominates(peer.high, seen)
      && forall k :: k in seen && k !in peer.expired ==>
           k in peer.records && seen[k].Version() <= peer.records[k].Version()
  {
    InitHoldsInv(s0);
    RunKeepsInv(s0, events);
    var peer := PeerOf(After(s0, events).peers, n);
    assert PeerInv(peer);
    forall k | k in seen && k !in peer.expired
      ensures k in peer.records && seen[k].Version() <= peer.records[k].Version()
    {
      AppliedIsStored(peer, seen, k);
    }
  }

  // ------------------------------------------------------------- orderly networks

  /** No waiting run is resent or dropped, and no batch is acknowledged twice. */
  ghost predicate Orderly(s: State, events: seq<Event>)
    requires Legal(s, events)
    decreases |events|
  {
    events != [] ==>
      && OrderlyEvent(s, events[0])
      && Orderly(Apply(s, events[0]), events[1..])
  }

  ghost predicate OrderlyEvent(s: State, e: Event)
    requires Enabled(s, e)
  {
    match e
    case Serve(n, timedOut) => timedOut ==> n !in s.sync || s.sync[n].confirmed
    case BeginTick(connected, _) => forall n :: n in s.sync && !s.sync[n].confirmed ==> n in connected
    case Acknowledge(n, i, _) => i !in s.net[n].taken
    case _ => true
  }

  /** Every batch but the one being waited for has been acknowledged. */
  ghost predicate InStep(net: Net, state: Option<SyncState>) {
    && net.clean
    && (state.Some? ==> net.sent != [] && |net.sent| - 1 in net.good)
    && (forall i :: 0 <= i < |net.sent| && i !in net.taken ==>
          i == |net.sent| - 1 && state.Some? && !state.value.confirmed)
  }

  ghost predicate AllInStep(net: map<NodeId, Net>, sync: map<NodeId, SyncState>) {
    && sync.Keys <= net.Keys
    && forall n :: n in net ==> InStep(net[n], StateOf(sync, n))
  }

  ghost predicate AllClean(s: State) {
    && AllInStep(s.net, s.sync)
    && !(s.pc.Serving? && (s.pc.job.Repaging? || s.pc.job.Redraining?))
    && (!s.pc.Idle? ==> s.tick.tainted == {})
  }

  /** How a job that repeats nothing goes on. */
  lemma AdvanceInStep(l: Local, slot: Slot)
    requires Fits(l.job, l.state) && l.sent == None && !l.job.Repaging? && !l.job.Redraining? && !l.job.Finished?
    ensures var a := Advance(l, slot);
      && !a.job.Repaging? && !a.job.Redraining?
      && (a.sent.Some? ==> a.state.Some? && !a.state.value.confirmed)
      && (a.sent.Some? ==> l.job.Starting? || (l.state.Some? && l.state.value.confirmed))
      && (a.sent.None? ==> a.state == l.state)
      && (l.job.Starting? ==> l.state.None?)
  {
  }

  lemma PostedInStep(net: Net, state: Option<SyncState>, batch: seq<Wire>, good: set<nat>, st: SyncState)
    requires InStep(net, state) && (state.None? || state.value.confirmed) && |net.sent| in good && !st.confirmed
    ensures InStep(Posted(net, batch, good), Some(st))
  {
  }

  lemma LocalInStep(s: State, l: Local)
    requires AllClean(s) && s.pc.Serving? && !l.job.Repaging? && !l.job.Redraining?
    requires l.sent.Some? ==> l.state.Some? && !l.state.value.confirmed
    requires l.sent.Some? ==> s.pc.n !in s.sync || s.sync[s.pc.n].confirmed
    requires l.sent.None? ==> l.state == StateOf(s.sync, s.pc.n)
    ensures AllClean(AfterLocal(s, l))
  {
    var n, s' := s.pc.n, AfterLocal(s, l);
    if l.sent.Some? {
      var net := NetOf(s.net, n);
      assert InStep(net, StateOf(s.sync, n));
      var good := GoodAfter(net, s.pc.job, StateOf(s.sync, n), s.slot);
      PostedInStep(net, StateOf(s.sync, n), l.sent.value, good, l.state.value);
      assert StateOf(s'.sync, n) == l.state && net.(clean := s.pc.job.Starting? || net.clean) == net;
      OthersInStep(s.net, s.sync, n, Posted(net, l.sent.value, good), l.state.value);
    }
  }

  lemma OthersInStep(net: map<NodeId, Net>, sync: map<NodeId, SyncState>, n: NodeId, net': Net, st: SyncState)
    requires AllInStep(net, sync) && InStep(net', Some(st))
    ensures AllInStep(net[n := net'], sync[n := st])
  {
    var nets, runs := net[n := net'], sync[n := st];
    forall m | m in nets ensures InStep(nets[m], StateOf(runs, m)) {
      if m != n {
        assert InStep(net[m], StateOf(sync, m));
      }
    }
  }

  lemma CallStaysClean(s: State)
    requires AllClean(s) && CanCall(s)
    ensures AllClean(AfterCall(s))
  {
    AdvanceInStep(LocalOf(s), s.slot);
    LocalInStep(s, Advance(LocalOf(s), s.slot));
  }

  ghost predicate Awaits(sync: map<NodeId, SyncState>, net: map<NodeId, Net>, n: NodeId) {
    n in sync ==>
      n in net && net[n].sent != [] && Last(net[n]) != [] && sync[n].currMaxKey == MaxKey(Last(net[n]))
  }

  lemma RunsAwait(s: State, n: NodeId)
    requires RunsInv(s.id, s.slot, s.next, s.sync, s.net, s.peers)
    ensures Awaits(s.sync, s.net, n)
  {
  }

  /** The only acknowledgement still to come is that of the outstanding batch. */
  lemma AcknowledgementStaysClean(s: State, n: NodeId, i: nat, reply: map<PartitionId, Key>)
    requires AllClean(s) && Awaits(s.sync, s.net, n)
    requires n in s.net && i < |s.net[n].sent| && i !in s.net[n].taken
    requires s.net[n].sent[i] != [] && reply == map[s.id := MaxKey(s.net[n].sent[i])]
    ensures AllClean(AfterAcknowledge(s, n, i, reply))
  {
    assert InStep(s.net[n], StateOf(s.sync, n));
    assert n in s.sync && i == |s.net[n].sent| - 1;
    var s' := AfterAcknowledge(s, n, i, reply);
    assert s'.sync[n].confirmed && s'.net[n] == s.net[n].(taken := s.net[n].taken + {i});
    assert InStep(s'.net[n], Some(s'.sync[n]));
    OthersInStep(s.net, s.sync, n, s'.net[n], s'.sync[n]);
  }

  lemma ServeStaysClean(s: State, n: NodeId, timedOut: bool)
    requires AllClean(s) && s.pc.Ticking? && (timedOut ==> n !in s.sync || s.sync[n].confirmed)
    ensures AllClean(AfterServe(s, n, timedOut))
  {
  }

  /** A run that waits for nothing may be forgotten. */
  lemma DroppedInStep(net: map<NodeId, Net>, sync: map<NodeId, SyncState>, sync': map<NodeId, SyncState>)
    requires AllInStep(net, sync)
    requires forall n :: n in sync' ==> n in sync && sync'[n] == sync[n]
    requires forall n :: n in sync && !sync[n].confirmed ==> n in sync'
    ensures AllInStep(net, sync')
  {
    forall n | n in net ensures InStep(net[n], StateOf(sync', n)) {
      assert InStep(net[n], StateOf(sync, n));
    }
  }

  lemma DeliverStaysClean(s: State, n: NodeId, i: nat)
    requires AllClean(s) && n in s.net && i < |s.net[n].sent|
    ensures AllClean(AfterDeliver(s, n, i))
  {
    var net' := AfterDeliver(s, n, i).net;
    forall m | m in net' ensures InStep(net'[m], StateOf(s.sync, m)) {
      assert InStep(s.net[m], StateOf(s.sync, m));
    }
  }

  lemma OrderlyAcknowledgement(s: State, n: NodeId, i: nat, reply: map<PartitionId, Key>)
    requires NetsInv(s.id, s.net, s.peers) && RunsInv(s.id, s.slot, s.next, s.sync, s.net, s.peers) && AllClean(s)
    requires n in s.net && i < |s.net[n].sent| && IsReply(s.net[n].sent[i], reply) && i !in s.net[n].taken
    ensures AllClean(AfterAcknowledge(s, n, i, reply))
  {
    RepliesName(s, n, i, reply);
    RunsAwait(s, n);
    AcknowledgementStaysClean(s, n, i, reply);
  }

  lemma OrderlyBegin(s: State, connected: set<NodeId>, targets: set<NodeId>)
    requires AllClean(s) && forall n :: n in s.sync && !s.sync[n].confirmed ==> n in connected
    ensures AllClean(AfterBegin(s, connected, targets))
  {
    DroppedInStep(s.net, s.sync, AfterBegin(s, connected, targets).sync);
  }

  lemma OrderlyRecipients(s: State, through: nat)
    requires AllClean(s) && !s.pc.Idle?
    ensures AllClean(AfterRecipients(s, through))
  {
    DroppedInStep(s.net, s.sync, Unconfirmed(s.sync));
  }

  lemma OrderlyService(s: State, e: Event)
    requires AllClean(s) && Enabled(s, e) && OrderlyEvent(s, e) && OfService(e)
    ensures AllClean(Apply(s, e))
  {
    match e
    case BeginTick(connected, targets) => OrderlyBegin(s, connected, targets);
    case Serve(n, timedOut) => ServeStaysClean(s, n, timedOut);
    case StoreCall => CallStaysClean(s);
    case EndRecipients(through) => OrderlyRecipients(s, through);
    case Choose =>
    case Prune =>
    case Clean(_) =>
  }

  lemma OrderlyOutside(s: State, e: Event)
    requires AllClean(s) && Enabled(s, e) && !OfService(e) && !e.Acknowledge? && !e.Deliver?
    ensures AllClean(Apply(s, e))
  {
  }

  lemma OrderlyStep(s: State, e: Event)
    requires NetsInv(s.id, s.net, s.peers) && RunsInv(s.id, s.slot, s.next, s.sync, s.net, s.peers)
    requires AllClean(s) && Enabled(s, e) && OrderlyEvent(s, e)
    ensures AllClean(Apply(s, e))
  {
    if OfService(e) {
      OrderlyService(s, e);
    } else if e.Acknowledge? {
      OrderlyAcknowledgement(s, e.n, e.i, e.reply);
    } else if e.Deliver? {
      DeliverStaysClean(s, e.n, e.i);
    } else {
      OrderlyOutside(s, e);
    }
  }

  lemma {:induction false} OrderlyStaysClean(s: State, events: seq<Event>)
    requires Inv(s) && AllClean(s) && Legal(s, events) && Orderly(s, events)
    ensures AllClean(After(s, events))
    decreases |events|
  {
    if events != [] {
      StepKeepsInv(s, events[0]);
      OrderlyStep(s, events[0]);
      OrderlyStaysClean(Apply(s, events[0]), events[1..]);
    }
  }

  lemma InStepIsClean(s: State)
    requires AllClean(s) && RunsInv(s.id, s.slot, s.next, s.sync, s.net, s.peers)
    requires s.pc.Serving? && (s.pc.job.StartedEmpty? || s.pc.n in s.sync)
    ensures CleanRun(s)
  {
    if s.pc.n in s.sync {
      assert InStep(s.net[s.pc.n], StateOf(s.sync, s.pc.n));
    }
  }

  /** When no waiting run is resent or dropped and no batch is acknowledged twice,
      acknowledgements are in step over any number of runs, and every completion is safe. */
  lemma OrderlyCompletionIsSafe(s0: State, events: seq<Event>)
    requires Init(s0) && Legal(s0, events) && Orderly(s0, events)
    requires Completes(After(s0, events))
    ensures var s := After(s0, events); Dominates(PeerOf(s.peers, s.pc.n).high, s.pc.seen)
  {
    InitHoldsInv(s0);
    RunKeepsInv(s0, events);
    OrderlyStaysClean(s0, events);
    var s := After(s0, events);
    CompletionFollowsScan(s);
    InStepIsClean(s);
    CompletionIsSafe(s0, events);
  }

  // -------------------------------------------------- telling acknowledgements apart

  /** The greatest key of the last batch tells its acknowledgement apart from those of
      all batches that must not be relied on. */
  ghost predicate Distinct(net: Net) {
    net.sent != [] && Last(net) != [] &&
      forall i :: 0 <= i < |net.sent| && i !in net.good ==> net.sent[i] != [] && MaxKey(net.sent[i]) != MaxKey(Last(net))
  }

  /** Every batch sent to `n` can be told apart when it is sent. A repeated stretch of
      the journal that is too short cannot. */
  ghost predicate TellsApart(s: State, events: seq<Event>, n: NodeId)
    requires Legal(s, events)
    decreases |events|
  {
    events != [] ==>
      && ApartEvent(s, events[0], n)
      && TellsApart(Apply(s, events[0]), events[1..], n)
  }

  ghost predicate ApartEvent(s: State, e: Event, n: NodeId)
    requires Enabled(s, e)
  {
    e.StoreCall? && s.pc.n == n && AfterCall(s).net != s.net ==> n in AfterCall(s).net && Distinct(AfterCall(s).net[n])
  }

  ghost predicate ApartRun(s: State, n: NodeId) {
    && (n in s.sync ==> n in s.net && s.net[n].clean && Distinct(s.net[n]))
    && (!s.pc.Idle? ==> n !in s.tick.tainted)
  }

  lemma ApartAcknowledgement(s: State, n: NodeId, m: NodeId, i: nat, reply: map<PartitionId, Key>)
    requires ApartRun(s, n) && Awaits(s.sync, s.net, n)
    requires m in s.net && i < |s.net[m].sent| && s.net[m].sent[i] != []
    requires reply == map[s.id := MaxKey(s.net[m].sent[i])]
    ensures ApartRun(AfterAcknowledge(s, m, i, reply), n)
  {
    if n in s.sync && m == n {
      var net' := AfterAcknowledge(s, m, i, reply).net[n];
      assert net'.sent == s.net[n].sent && net'.good == s.net[n].good;
    }
  }

  /** What a call does to the recipient's messages and bookkeeping. */
  lemma CallPostsOrNot(l: Local, slot: Slot)
    requires Fits(l.job, l.state) && l.sent == None && !l.job.Finished?
    ensures var a := Advance(l, slot);
      && (a.sent.None? ==> a.state == l.state)
      && (l.state.None? && a.sent.Some? ==> l.job.Starting?)
      && (a.job == Finished(true) ==> l.job.StartedEmpty? || l.state.Some?)
  {
  }

  lemma LocalApart(s: State, l: Local, n: NodeId)
    requires s.pc.Serving? && ApartRun(s, n)
    requires l.sent.None? ==> l.state == StateOf(s.sync, s.pc.n)
    requires l.sent.Some? && s.pc.n !in s.sync ==> s.pc.job.Starting?
    requires l.job == Finished(true) ==> s.pc.job.StartedEmpty? || s.pc.n in s.sync
    requires s.pc.n == n && AfterLocal(s, l).net != s.net ==> n in AfterLocal(s, l).net && Distinct(AfterLocal(s, l).net[n])
    ensures ApartRun(AfterLocal(s, l), n)
  {
    if l.sent.Some? && s.pc.n == n {
      assert AfterLocal(s, l).net[n].sent == NetOf(s.net, n).sent + [l.sent.value];
    }
  }

  lemma ApartKept(s: State, s': State, n: NodeId)
    requires ApartRun(s, n)
    requires KeepsApart(s, s', n)
    ensures ApartRun(s', n)
  {
  }

  ghost predicate KeepsApart(s: State, s': State, n: NodeId) {
    && (n in s'.sync ==> n in s.sync)
    && (n in s.net ==> n in s'.net && s'.net[n] == s.net[n].(applied := s'.net[n].applied))
    && (!s'.pc.Idle? ==> s'.tick.tainted == {} || (!s.pc.Idle? && s'.tick.tainted == s.tick.tainted))
  }

  lemma ServiceKeepsApart(s: State, e: Event, n: NodeId)
    requires Enabled(s, e) && OfService(e) && !e.StoreCall?
    ensures KeepsApart(s, Apply(s, e), n)
  {
  }

  lemma OtherEventsKeepApart(s: State, e: Event, n: NodeId)
    requires Enabled(s, e) && !OfService(e) && !e.Acknowledge?
    ensures KeepsApart(s, Apply(s, e), n)
  {
  }

  lemma CallStaysApart(s: State, n: NodeId)
    requires ApartRun(s, n) && Enabled(s, StoreCall) && ApartEvent(s, StoreCall, n)
    ensures ApartRun(AfterCall(s), n)
  {
    CallPostsOrNot(LocalOf(s), s.slot);
    LocalApart(s, Advance(LocalOf(s), s.slot), n);
  }

  lemma AcknowledgementStaysApart(s: State, n: NodeId, m: NodeId, i: nat, reply: map<PartitionId, Key>)
    requires NetsInv(s.id, s.net, s.peers) && RunsInv(s.id, s.slot, s.next, s.sync, s.net, s.peers) && ApartRun(s, n)
    requires m in s.net && i < |s.net[m].sent| && IsReply(s.net[m].sent[i], reply)
    ensures ApartRun(AfterAcknowledge(s, m, i, reply), n)
  {
    RepliesName(s, m, i, reply);
    RunsAwait(s, n);
    ApartAcknowledgement(s, n, m, i, reply);
  }

  lemma ApartStep(s: State, e: Event, n: NodeId)
    requires NetsInv(s.id, s.net, s.peers) && RunsInv(s.id, s.slot, s.next, s.sync, s.net, s.peers)
    requires ApartRun(s, n) && Enabled(s, e) && ApartEvent(s, e, n)
    ensures ApartRun(Apply(s, e), n)
  {
    if e.StoreCall? {
      CallStaysApart(s, n);
    } else if e.Acknowledge? {
      AcknowledgementStaysApart(s, n, e.n, e.i, e.reply);
    } else {
      if OfService(e) {
        ServiceKeepsApart(s, e, n);
      } else {
        OtherEventsKeepApart(s, e, n);
      }
      ApartKept(s, Apply(s, e), n);
    }
  }

  lemma {:induction false} ApartStaysClean(s: State, events: seq<Event>, n: NodeId)
    requires Inv(s) && ApartRun(s, n) && Legal(s, events) && TellsApart(s, events, n)
    ensures ApartRun(After(s, events), n)
    decreases |events|
  {
    if events != [] {
      StepKeepsInv(s, events[0]);
      ApartStep(s, events[0], n);
      ApartStaysClean(Apply(s, events[0]), events[1..], n);
    }
  }

  /** On any network, with any resends and any number of runs, completion is safe for a
      recipient if the sender sends it no batch whose greatest key is that of a batch
      it must not rely on: a condition the sender can check before it sends. */
  lemma DistinctKeysMakeCompletionSafe(s0: State, events: seq<Event>, n: NodeId)
    requires Init(s0) && Legal(s0, events) && TellsApart(s0, events, n)
    requires Completes(After(s0, events)) && After(s0, events).pc.n == n
    ensures var s := After(s0, events); Dominates(PeerOf(s.peers, n).high, s.pc.seen)
  {
    InitHoldsInv(s0);
    ApartStaysClean(s0, events, n);
    CompletionFollowsScan(After(s0, events));
    CompletionIsSafe(s0, events);
  }

  // ---------------------------------------------------------------- acknowledgements

  /** In every reachable state, whatever a recipient of the outstanding batch may answer
      names this partition alone, with exactly the key the sender waits for. */
  lemma RepliesNameTheAwaitedKey(s0: State, events: seq<Event>, n: NodeId, reply: map<PartitionId, Key>)
    requires Init(s0) && Legal(s0, events)
    requires var s := After(s0, events);
      n in s.sync && n in s.net && s.net[n].sent != [] && IsReply(Last(s.net[n]), reply)
    ensures var s := After(s0, events); reply == map[s.id := s.sync[n].currMaxKey]
  {
    InitHoldsInv(s0);
    RunKeepsInv(s0, events);
    AwaitedReply(After(s0, events), n, reply);
  }

  lemma AwaitedReply(s: State, n: NodeId, reply: map<PartitionId, Key>)
    requires NetsInv(s.id, s.net, s.peers) && RunsInv(s.id, s.slot, s.next, s.sync, s.net, s.peers)
    requires n in s.sync && n in s.net && s.net[n].sent != [] && IsReply(Last(s.net[n]), reply)
    ensures reply == map[s.id := s.sync[n].currMaxKey]
  {
    RepliesName(s, n, |s.net[n].sent| - 1, reply);
    RunsAwait(s, n);
  }

  /** Exactly when an acknowledgement is taken for another: the run waits, the batch
      acknowledged must not be relied on, and its greatest key is the one waited for. */
  lemma ConfusedExactlyByEqualKeys(s0: State, events: seq<Event>, n: NodeId, i: nat, reply: map<PartitionId, Key>)
    requires Init(s0) && Legal(s0, events)
    requires var s := After(s0, events);
      Enabled(s, Acknowledge(n, i, reply)) && n in s.sync && s.net[n].clean
    ensures var s := After(s0, events);
      && s.net[n].sent[i] != []
      && (!Apply(s, Acknowledge(n, i, reply)).net[n].clean <==>
            !s.sync[n].confirmed && i !in s.net[n].good && MaxKey(s.net[n].sent[i]) == s.sync[n].currMaxKey)
  {
    InitHoldsInv(s0);
    RunKeepsInv(s0, events);
    RepliesName(After(s0, events), n, i, reply);
    ConfusedByEqualKeys(After(s0, events), n, i, reply);
  }

  lemma ConfusedByEqualKeys(s: State, n: NodeId, i: nat, reply: map<PartitionId, Key>)
    requires n in s.net && n in s.sync && i < |s.net[n].sent| && s.net[n].clean && s.net[n].sent[i] != []
    requires reply == map[s.id := MaxKey(s.net[n].sent[i])]
    ensures !AfterAcknowledge(s, n, i, reply).net[n].clean <==>
      !s.sync[n].confirmed && i !in s.net[n].good && MaxKey(s.net[n].sent[i]) == s.sync[n].currMaxKey
  {
  }

  // ------------------------------------------------------------------ bad networks

  /** While the snapshot is paged, a confirmation is sound on any network, with batches
      and acknowledgements lost, repeated, delayed or reordered and timeouts resending,
      unless the acknowledgement of an earlier run was taken for one of this run; and
      in a recipient's first run there is none to take. Every stored key up to the
      confirmed one has been applied at least as new or is journaled above the revision
      the run started from. */
  lemma SnapshotAcksSurviveBadNetwork(s0: State, events: seq<Event>, n: NodeId)
    requires Init(s0) && Legal(s0, events)
    requires var s := After(s0, events);
      n in s.sync && n in s.net && s.sync[n].phase.Snapshot? && s.sync[n].confirmed && (s.net[n].clean || AllGood(s.net[n]))
    ensures var s := After(s0, events);
      forall k :: k in Records(s.slot) && k <= s.sync[n].currMaxKey ==>
        || Applied(PeerOf(s.peers, n).high, k, Records(s.slot)[k].Version())
        || Journaled(s.slot, k, s.sync[n].phase.revision)
  {
    InitHoldsInv(s0);
    RunKeepsInv(s0, events);
    var s := After(s0, events);
    assert RunInv(s.id, s.slot, s.next, s.sync[n], s.net[n], PeerOf(s.peers, n).high);
    assert HeldUpTo(s.slot, PeerOf(s.peers, n).high, s.sync[n].currMaxKey, s.sync[n].phase.revision);
  }

  // ----------------------------------------------------------------------- pruning

  /** Pruning never loses needed history: every recipient with a run in progress,
      however many there are, still finds every entry journaled since the partition
      was last created above its own cursor. */
  lemma PruningKeepsNeededHistory(s0: State, events: seq<Event>, n: NodeId, r: nat)
    requires Init(s0) && Legal(s0, events)
    requires var s := After(s0, events); n in s.sync && r in s.log && Cursor(s.sync[n]) < r
    ensures var s := After(s0, events); r in Changes(s.slot) && Changes(s.slot)[r] == s.log[r]
  {
    InitHoldsInv(s0);
    RunKeepsInv(s0, events);
    var s := After(s0, events);
    assert Retained(s.slot, s.log, Cursor(s.sync[n]));
  }

  // --------------------------------------------------------------------- hand-over

  /** Safe hand-over: on a tick that nobody disturbed and that found no writer in
      flight, a worker erases the partition only when every owner it had to serve on
      that tick was declared complete on it; each of them whose run was clean has
      applied a mutation at least as new as every record erased. */
  lemma HandOverIsSafe(s0: State, events: seq<Event>, o: NodeId)
    requires Init(s0) && Legal(s0, events)
    requires var s := After(s0, events); s.pc.Cleaning? && Erases(s, false) && s.tick.calm && o in s.tick.targets
    ensures var s := After(s0, events);
      && (o in s.tick.done || o in s.tick.tainted)
      && (o !in s.tick.tainted ==> Dominates(PeerOf(s.peers, o).high, Records(s.slot)))
  {
    InitHoldsInv(s0);
    RunKeepsInv(s0, events);
    var s := After(s0, events);
    assert Served(s.tick, s.slot, s.sync, s.declared, o);
    if o !in s.tick.tainted {
      var d := (o, Records(s.slot));
      assert d in s.declared;
      assert Dominates(PeerOf(s.peers, d.0).high, d.1);
    }
  }

  /** ... so when no waiting run is resent or dropped and no batch is acknowledged twice,
      an undisturbed tick erases the partition only when every owner it had to serve completed on it and
      has applied a mutation at least as new as every record erased. */
  lemma OrderlyHandOverIsSafe(s0: State, events: seq<Event>, o: NodeId)
    requires Init(s0) && Legal(s0, events) && Orderly(s0, events)
    requires var s := After(s0, events); s.pc.Cleaning? && Erases(s, false) && s.tick.calm && o in s.tick.targets
    ensures var s := After(s0, events);
      o in s.tick.done && Dominates(PeerOf(s.peers, o).high, Records(s.slot))
  {
    InitHoldsInv(s0);
    OrderlyStaysClean(s0, events);
    HandOverIsSafe(s0, events, o);
  }

  /** ... and likewise for an owner to which the sender can tell its batches apart. */
  lemma DistinctKeysMakeHandOverSafe(s0: State, events: seq<Event>, o: NodeId)
    requires Init(s0) && Legal(s0, events) && TellsApart(s0, events, o)
    requires var s := After(s0, events); s.pc.Cleaning? && Erases(s, false) && s.tick.calm && o in s.tick.targets
    ensures var s := After(s0, events);
      o in s.tick.done && Dominates(PeerOf(s.peers, o).high, Records(s.slot))
  {
    InitHoldsInv(s0);
    ApartStaysClean(s0, events, o);
    HandOverIsSafe(s0, events, o);
  }
}
