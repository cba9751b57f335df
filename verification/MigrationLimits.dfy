/** Where the migration's guarantees end: runs in which every batch is delivered once and
    acknowledged once, and which nevertheless declare a recipient complete too early,
    because acknowledgements are told apart by their greatest key alone. */
module MigrationLimits {
  import opened Common
  import opened Ordered
  import opened StoreModel
  import opened SyncModel
  import opened Coverage
  import opened Migration
  import opened MigrationTheorems
  import TickRuns

  const ID: PartitionId := 0
  const KEY: Key := 0
  const PEER: NodeId := 1

  function Version(v: nat): Mutation {
    Put(Record(0, v, []))
  }

  function Batch(v: nat): seq<Wire> {
    [Wire(KEY, [], 0, v, false)]
  }

  /** A partition holding one record, last written at `revision`. */
  function Part(v: nat, changes: map<nat, Key>, revision: nat): Slot {
    Some(PartitionStore(map[KEY := Version(v)], changes, 0, revision))
  }

  // ------------------------------------------------------------- pages of one record

  lemma PageOfOne(k: nat, after: int, amount: nat)
    requires 0 < amount
    ensures Page({k}, after, amount) == if after < k then [k] else []
  {
    if after < k {
      assert IsPage({k}, after, amount, [k]);
      PageUnique({k}, after, amount, [k]);
    } else {
      assert IsPage({k}, after, amount, []);
      PageUnique({k}, after, amount, []);
    }
  }

  lemma RecordPageOfOne(v: nat, changes: map<nat, Key>, revision: nat)
    ensures RecordPage(Part(v, changes, revision), None, SYNC_BATCH_SIZE) == [(KEY, Version(v))]
    ensures RecordPage(Part(v, changes, revision), Some(KEY), SYNC_BATCH_SIZE) == []
  {
    var records := Records(Part(v, changes, revision));
    assert records.Keys == {KEY};
    PageOfOne(KEY, -1, SYNC_BATCH_SIZE);
    PageOfOne(KEY, KEY, SYNC_BATCH_SIZE);
  }

  lemma ChangePageOfOne(v: nat, at: nat, after: nat, revision: nat)
    ensures ChangePage(Part(v, map[at := KEY], revision), after, SYNC_BATCH_SIZE) ==
      if after < at then Some((at, [(KEY, Version(v))])) else None
  {
    var changes: map<nat, Key> := map[at := KEY];
    var slot := Part(v, changes, revision);
    assert Changes(slot).Keys == {at};
    PageOfOne(at, after, SYNC_BATCH_SIZE);
    if after < at {
      assert [at][1..] == [];
      assert Live(Records(slot), changes, [at]) == [(KEY, Version(v))] + Live(Records(slot), changes, []);
      assert Live(Records(slot), changes, [at]) == [(KEY, Version(v))];
    }
  }

  lemma NoChanges(v: nat, after: nat, revision: nat)
    ensures ChangePage(Part(v, map[], revision), after, SYNC_BATCH_SIZE) == None
  {
    assert Changes(Part(v, map[], revision)).Keys == {};
    assert IsPage({}, after, SYNC_BATCH_SIZE, []);
    PageUnique({}, after, SYNC_BATCH_SIZE, []);
  }

  lemma WiresOfOne(v: nat)
    ensures ToWires([(KEY, Version(v))]) == Batch(v) && MaxKey(Batch(v)) == KEY
    ensures IsReply(Batch(v), map[ID := KEY])
  {
    WiresAre([(KEY, Version(v))]);
  }

  // ---------------------------------------------------------------------- the run

  /** What of a state matters here. */
  datatype Core = Core(
    slot: Slot, next: nat, entry: bool, sync: map<NodeId, SyncState>, pc: Pc, net: map<NodeId, Net>, peers: map<NodeId, Peer>)

  function CoreOf(s: State): Core {
    Core(s.slot, s.next, s.entry, s.sync, s.pc, s.net, s.peers)
  }

  /** `events` lead from `s` to a state that looks like `core`. */
  ghost predicate Leads(s: State, events: seq<Event>, core: Core) {
    Legal(s, events) && CoreOf(After(s, events)) == core && After(s, events).id == s.id
  }

  lemma Then(s: State, events: seq<Event>, more: seq<Event>, core: Core)
    requires Legal(s, events) && Leads(After(s, events), more, core) && After(s, events).id == s.id
    ensures Leads(s, events + more, core)
  {
    TickRuns.RunsCompose(s, events, more);
  }

  lemma Step(s: State, e: Event)
    requires Enabled(s, e) && Apply(s, e).id == s.id
    ensures Leads(s, [e], CoreOf(Apply(s, e))) && After(s, [e]) == Apply(s, e)
  {
    TickRuns.OneStep(s, e);
  }

  function Waiting(phase: Phase, confirmed: bool): map<NodeId, SyncState> {
    map[PEER := SyncState(None, KEY, phase, confirmed)]
  }

  lemma WriteLeads(s: State, v: nat)
    requires s.id == ID && v == s.next + 1 && (s.slot == None || s.slot == Part(s.next, map[], s.next))
    ensures Leads(s, [Write(KEY, Version(v))], CoreOf(s).(slot := Part(v, map[v := KEY], v), next := v))
  {
    Step(s, Write(KEY, Version(v)));
    assert Records(Written(s.slot, s.next, KEY, Version(v))) == map[KEY := Version(v)];
  }

  lemma ServeLeads(s: State, timedOut: bool)
    requires s.pc == Idle && s.sync.Keys <= {PEER} && !Begin(StateOf(s.sync, PEER), timedOut).job.Finished?
    ensures Leads(s, [BeginTick({PEER}, {PEER})] + [Serve(PEER, timedOut)],
      CoreOf(s).(entry := true, pc := Serving({}, PEER, Begin(StateOf(s.sync, PEER), timedOut).job, map[])))
  {
    var begin := BeginTick({PEER}, {PEER});
    Step(s, begin);
    var s1 := Apply(s, begin);
    assert s1.sync == s.sync;
    Step(s1, Serve(PEER, timedOut));
    assert {PEER} - {PEER} == {};
    Then(s, [begin], [Serve(PEER, timedOut)], CoreOf(Apply(s1, Serve(PEER, timedOut))));
  }

  lemma EndLeads(s: State, phase: Phase)
    requires s.pc == Ticking({}) && s.sync == Waiting(phase, false) && s.slot.Some? && s.entry
    ensures var through := Cursor(s.sync[PEER]);
      Leads(s, [EndRecipients(through)] + [Prune] + [Clean(true)], CoreOf(s).(slot := Pruned(s.slot, through), pc := Idle))
  {
    var through := Cursor(s.sync[PEER]);
    assert Unconfirmed(s.sync) == s.sync;
    assert PEER in s.sync && IsLeastCursor(s.sync, through);
    Step(s, EndRecipients(through));
    var s1 := Apply(s, EndRecipients(through));
    Step(s1, Prune);
    var s2 := Apply(s1, Prune);
    Then(s, [EndRecipients(through)], [Prune], CoreOf(s2));
    Step(s2, Clean(true));
    TickRuns.RunsCompose(s, [EndRecipients(through)], [Prune]);
    Then(s, [EndRecipients(through)] + [Prune], [Clean(true)], CoreOf(Apply(s2, Clean(true))));
  }

  lemma EndLeadsEmpty(s: State)
    requires s.pc == Ticking({}) && Unconfirmed(s.sync) == map[] && Stable(s.slot).Some?
    ensures Leads(s, [EndRecipients(0)] + [Choose] + [Prune] + [Clean(true)],
      CoreOf(s).(slot := Pruned(s.slot, Stable(s.slot).value), entry := false, sync := map[], pc := Idle))
  {
    Step(s, EndRecipients(0));
    var s1 := Apply(s, EndRecipients(0));
    Step(s1, Choose);
    var s2 := Apply(s1, Choose);
    Then(s, [EndRecipients(0)], [Choose], CoreOf(s2));
    TickRuns.RunsCompose(s, [EndRecipients(0)], [Choose]);
    EndErasing(s2);
    Then(s, [EndRecipients(0)] + [Choose], [Prune] + [Clean(true)],
         CoreOf(s2).(slot := Pruned(s2.slot, s2.pc.through), entry := false, pc := Idle));
    assert [EndRecipients(0)] + [Choose] + ([Prune] + [Clean(true)]) == [EndRecipients(0)] + [Choose] + [Prune] + [Clean(true)];
  }

  lemma EndErasing(s: State)
    requires s.pc.Pruning? && s.sync == map[]
    ensures Leads(s, [Prune] + [Clean(true)], CoreOf(s).(slot := Pruned(s.slot, s.pc.through), entry := false, pc := Idle))
  {
    Step(s, Prune);
    var s1 := Apply(s, Prune);
    Step(s1, Clean(true));
    Then(s, [Prune], [Clean(true)], CoreOf(Apply(s1, Clean(true))));
  }

  lemma OpenedLeads(s: State, v: nat)
    requires s.pc == Serving({}, PEER, Opening, map[]) && s.sync == map[] && s.slot == Part(v, map[v := KEY], v)
    ensures Leads(s, [StoreCall], CoreOf(s).(pc := Serving({}, PEER, Starting(v), map[])))
  {
    Step(s, StoreCall);
  }

  lemma StartedLeads(s: State, v: nat)
    requires s.pc == Serving({}, PEER, Starting(v), map[]) && s.sync == map[] && s.slot == Part(v, map[v := KEY], v)
    ensures var net := NetOf(s.net, PEER);
      Leads(s, [StoreCall],
        CoreOf(s).(sync := Waiting(Snapshot(v), false), pc := Ticking({}),
                   net := s.net[PEER := Posted(net.(clean := true), Batch(v), {|net.sent|})]))
  {
    RecordPageOfOne(v, map[v := KEY], v);
    WiresOfOne(v);
    Step(s, StoreCall);
  }

  /** Starting a run sends the one record. */
  lemma OpeningLeads(s: State, v: nat)
    requires s.pc == Serving({}, PEER, Opening, map[]) && s.sync == map[] && s.slot == Part(v, map[v := KEY], v)
    ensures var net := NetOf(s.net, PEER);
      Leads(s, [StoreCall] + [StoreCall],
        CoreOf(s).(sync := Waiting(Snapshot(v), false), pc := Ticking({}),
                   net := s.net[PEER := Posted(net.(clean := true), Batch(v), {|net.sent|})]))
  {
    OpenedLeads(s, v);
    var s1 := After(s, [StoreCall]);
    StartedLeads(s1, v);
    Then(s, [StoreCall], [StoreCall], CoreOf(After(s1, [StoreCall])));
  }

  lemma ResendLeads(s: State, net: Net)
    requires s.pc == Serving({}, PEER, Repaging, map[]) && s.sync == Waiting(Snapshot(1), false)
    requires s.slot == Part(1, map[], 1) && s.net == map[PEER := net]
    ensures Leads(s, [StoreCall],
      CoreOf(s).(pc := Ticking({}), net := map[PEER := Posted(net, Batch(1), net.good + {|net.sent|})]))
  {
    RecordPageOfOne(1, map[], 1);
    WiresOfOne(1);
    Step(s, StoreCall);
  }

  lemma PagedLeads(s: State, v: nat, changes: map<nat, Key>, r: nat)
    requires s.pc == Serving({}, PEER, Paging, map[]) && s.sync == Waiting(Snapshot(r), true)
    requires s.slot == Part(v, changes, v)
    ensures Leads(s, [StoreCall], CoreOf(s).(pc := Serving({}, PEER, Draining(r, r), map[])))
  {
    RecordPageOfOne(v, changes, v);
    Step(s, StoreCall);
  }

  lemma ReplayLeads(s: State, net: Net)
    requires s.pc == Serving({}, PEER, Draining(1, 1), map[]) && s.sync == Waiting(Snapshot(1), true)
    requires s.slot == Part(2, map[2 := KEY], 2) && s.net == map[PEER := net]
    ensures Leads(s, [StoreCall],
      CoreOf(s).(sync := Waiting(Changing(1, 2), false), pc := Ticking({}),
                 net := map[PEER := Posted(net, Batch(2), {|net.sent|})]))
  {
    ChangePageOfOne(2, 2, 1, 2);
    WiresOfOne(2);
    Step(s, StoreCall);
  }

  lemma DrainingLeads(s: State, net: Net)
    requires s.pc == Serving({}, PEER, Paging, map[]) && s.sync == Waiting(Snapshot(1), true)
    requires s.slot == Part(2, map[2 := KEY], 2) && s.net == map[PEER := net]
    ensures Leads(s, [StoreCall] + [StoreCall],
      CoreOf(s).(sync := Waiting(Changing(1, 2), false), pc := Ticking({}),
                 net := map[PEER := Posted(net, Batch(2), {|net.sent|})]))
  {
    PagedLeads(s, 2, map[2 := KEY], 1);
    var s1 := After(s, [StoreCall]);
    ReplayLeads(s1, net);
    Then(s, [StoreCall], [StoreCall], CoreOf(After(s1, [StoreCall])));
  }

  /** The last scan finds no entry and notes what is stored. */
  lemma DrainedLeads(s: State, v: nat, changes: map<nat, Key>, phase: Phase, r: nat)
    requires s.pc == Serving({}, PEER, Draining(r, r), map[]) && s.sync == Waiting(phase, true)
    requires s.slot == Part(v, changes, v) && ChangePage(s.slot, r, SYNC_BATCH_SIZE) == None
    ensures Leads(s, [StoreCall], CoreOf(s).(pc := Serving({}, PEER, Settling, map[KEY := Version(v)])))
  {
    Step(s, StoreCall);
  }

  lemma SettledLeads(s: State, seen: map<Key, Mutation>, phase: Phase)
    requires s.pc == Serving({}, PEER, Settling, seen) && s.sync == Waiting(phase, true) && Stable(s.slot).Some?
    ensures Leads(s, [StoreCall], CoreOf(s).(pc := Ticking({})))
  {
    Step(s, StoreCall);
  }

  lemma DeliverLeads(s: State, i: nat, net: Net)
    requires i < |net.sent| && net.sent[i] == Batch(1) && s.net == map[PEER := net]
    requires s.peers == map[] || s.peers == map[PEER := Holder()]
    ensures Leads(s, [Deliver(PEER, i)],
      CoreOf(s).(net := map[PEER := net.(applied := net.applied + {i})], peers := map[PEER := Holder()]))
  {
    Step(s, Deliver(PEER, i));
    HolderAbsorbs(PeerOf(s.peers, PEER));
  }

  lemma HolderAbsorbs(peer: Peer)
    requires peer == Peer(map[], map[], {}) || peer == Holder()
    ensures Absorb(peer, Batch(1)) == Holder()
  {
    var taken := TakeIn(peer, Batch(1)[0]);
    assert FromWire(Batch(1)[0]) == Version(1);
    assert taken == Holder();
    assert Batch(1)[1..] == [];
    assert Absorb(peer, Batch(1)) == Absorb(taken, []);
  }

  /** The recipient, having applied the first version and nothing else. */
  function Holder(): Peer {
    Peer(map[KEY := Version(1)], map[KEY := 1], {})
  }

  lemma AcknowledgeLeads(s: State, i: nat, phase: Phase, net: Net)
    requires s.id == ID && s.pc == Idle && s.sync == Waiting(phase, false) && s.net == map[PEER := net]
    requires i < |net.sent| && net.sent[i] == Batch(1) && i in net.applied
    ensures Leads(s, [Acknowledge(PEER, i, map[ID := KEY])],
      CoreOf(s).(sync := Waiting(phase, true),
                 net := map[PEER := net.(taken := net.taken + {i}, clean := net.clean && i in net.good)]))
  {
    WiresOfOne(1);
    Step(s, Acknowledge(PEER, i, map[ID := KEY]));
    AcknowledgedWaiting(s, i, phase, net);
  }

  lemma AcknowledgedWaiting(s: State, i: nat, phase: Phase, net: Net)
    requires s.id == ID && s.sync == Waiting(phase, false) && s.net == map[PEER := net] && i < |net.sent|
    ensures var s' := AfterAcknowledge(s, PEER, i, map[ID := KEY]);
      && s'.sync == Waiting(phase, true)
      && s'.net == map[PEER := net.(taken := net.taken + {i}, clean := net.clean && i in net.good)]
  {
  }

  function Started(core: Core, job: Job): Core {
    core.(entry := true, pc := Serving({}, PEER, job, map[]))
  }

  ghost predicate AllLead(id: PartitionId, start: Core, calls: seq<Event>, end: Core) {
    forall t: State :: t.id == id && CoreOf(t) == start ==> Leads(t, calls, end)
  }

  /** One tick: serving the recipient, the store calls, and the end of the tick. */
  lemma TickLeads(s: State, timedOut: bool, calls: seq<Event>, middle: Core, phase: Phase) returns (events: seq<Event>)
    requires s.pc == Idle && s.sync.Keys <= {PEER} && !Begin(StateOf(s.sync, PEER), timedOut).job.Finished?
    requires AllLead(s.id, Started(CoreOf(s), Begin(StateOf(s.sync, PEER), timedOut).job), calls, middle)
    requires middle.pc == Ticking({}) && middle.sync == Waiting(phase, false) && middle.slot.Some? && middle.entry
    ensures Leads(s, events, middle.(slot := Pruned(middle.slot, Cursor(middle.sync[PEER])), pc := Idle))
  {
    var first := [BeginTick({PEER}, {PEER})] + [Serve(PEER, timedOut)];
    ServeLeads(s, timedOut);
    Then(s, first, calls, middle);
    var s2 := After(s, first + calls);
    EndLeads(s2, phase);
    var through := Cursor(middle.sync[PEER]);
    var last := [EndRecipients(through)] + [Prune] + [Clean(true)];
    events := first + calls + last;
    Then(s, first + calls, last, middle.(slot := Pruned(middle.slot, through), pc := Idle));
  }

  lemma PrunedPart(v: nat, changes: map<nat, Key>, revision: nat, through: nat, left: map<nat, Key>)
    requires left == PrunedChanges(changes, through)
    ensures Pruned(Part(v, changes, revision), through) == Part(v, left, revision)
  {
  }

  /** The messages after one batch, and after it was repeated. */
  const ONCE := Net([Batch(1)], {}, {}, {0}, true)
  const TWICE := Net([Batch(1), Batch(1)], {}, {}, {0, 1}, true)

  /** A worker between ticks, waiting for a recipient or not. */
  function Between(slot: Slot, next: nat, sync: map<NodeId, SyncState>, net: Net, peers: map<NodeId, Peer>): Core {
    Core(slot, next, sync != map[], sync, Idle, map[PEER := net], peers)
  }

  /** A record is written, and a run started for it. */
  lemma RunStarted(s: State, v: nat) returns (events: seq<Event>)
    requires s.id == ID && s.pc == Idle && s.sync == map[] && v == s.next + 1
    requires s.slot == None || s.slot == Part(s.next, map[], s.next)
    requires s.net == map[] || s.net == map[PEER := NetOf(s.net, PEER)]
    ensures var net := NetOf(s.net, PEER);
      Leads(s, events, Between(Part(v, map[], v), v, Waiting(Snapshot(v), false),
                               Posted(net.(clean := true), Batch(v), {|net.sent|}), s.peers))
  {
    events := [Write(KEY, Version(v))];
    WriteLeads(s, v);
    var s1 := After(s, events);
    var tick := FirstTick(s1, v);
    Then(s, events, tick, CoreOf(After(s1, tick)));
    events := events + tick;
  }

  lemma FirstTick(s: State, v: nat) returns (events: seq<Event>)
    requires s.pc == Idle && s.sync == map[] && s.slot == Part(v, map[v := KEY], v)
    requires s.net == map[] || s.net == map[PEER := NetOf(s.net, PEER)]
    ensures var net := NetOf(s.net, PEER);
      Leads(s, events, Between(Part(v, map[], v), s.next, Waiting(Snapshot(v), false),
                               Posted(net.(clean := true), Batch(v), {|net.sent|}), s.peers))
  {
    var net := NetOf(s.net, PEER);
    var sent := CoreOf(s).(entry := true, sync := Waiting(Snapshot(v), false), pc := Ticking({}),
                           net := map[PEER := Posted(net.(clean := true), Batch(v), {|net.sent|})]);
    forall t: State | t.id == s.id && CoreOf(t) == Started(CoreOf(s), Opening)
      ensures Leads(t, [StoreCall] + [StoreCall], sent)
    {
      OpeningLeads(t, v);
    }
    events := TickLeads(s, false, [StoreCall] + [StoreCall], sent, Snapshot(v));
    PrunedPart(v, map[v := KEY], v, v, map[]);
  }

  /** The first record is written and sent twice, the second time on a timeout. */
  lemma SentTwice(s: State) returns (events: seq<Event>)
    requires Init(s) && s.id == ID && s.next == 0
    ensures Leads(s, events, Between(Part(1, map[], 1), 1, Waiting(Snapshot(1), false), TWICE, map[]))
  {
    events := RunStarted(s, 1);
    assert Posted(UNUSED, Batch(1), {0}) == ONCE;
    var again := ResentOnce(After(s, events));
    Then(s, events, again, Between(Part(1, map[], 1), 1, Waiting(Snapshot(1), false), TWICE, map[]));
    events := events + again;
  }

  lemma ResentOnce(s: State) returns (events: seq<Event>)
    requires CoreOf(s) == Between(Part(1, map[], 1), 1, Waiting(Snapshot(1), false), ONCE, map[])
    ensures Leads(s, events, CoreOf(s).(net := map[PEER := TWICE]))
  {
    var sent := CoreOf(s).(pc := Ticking({}), net := map[PEER := TWICE]);
    assert Posted(ONCE, Batch(1), {0} + {1}) == TWICE;
    forall t: State | t.id == s.id && CoreOf(t) == Started(CoreOf(s), Repaging)
      ensures Leads(t, [StoreCall], sent)
    {
      ResendLeads(t, ONCE);
    }
    events := TickLeads(s, true, [StoreCall], sent, Snapshot(1));
    PrunedPart(1, map[], 1, 1, map[]);
  }

  /** Both copies arrive; the first acknowledgement is taken. */
  lemma FirstAcknowledged(s: State) returns (events: seq<Event>)
    requires s.id == ID && CoreOf(s) == Between(Part(1, map[], 1), 1, Waiting(Snapshot(1), false), TWICE, map[])
    ensures Leads(s, events,
      Between(Part(1, map[], 1), 1, Waiting(Snapshot(1), true), TWICE.(applied := {0, 1}, taken := {0}), map[PEER := Holder()]))
  {
    DeliverLeads(s, 0, TWICE);
    var s1 := After(s, [Deliver(PEER, 0)]);
    DeliverLeads(s1, 1, s1.net[PEER]);
    var both := CoreOf(s).(net := map[PEER := TWICE.(applied := {0, 1})], peers := map[PEER := Holder()]);
    assert {} + {0} + {1} == {0, 1};
    Then(s, [Deliver(PEER, 0)], [Deliver(PEER, 1)], both);
    events := [Deliver(PEER, 0)] + [Deliver(PEER, 1)];
    var s2 := After(s, events);
    AcknowledgeLeads(s2, 0, Snapshot(1), s2.net[PEER]);
    assert {} + {0} == {0};
    Then(s, events, [Acknowledge(PEER, 0, map[ID := KEY])],
         both.(sync := Waiting(Snapshot(1), true), net := map[PEER := TWICE.(applied := {0, 1}, taken := {0})]));
    events := events + [Acknowledge(PEER, 0, map[ID := KEY])];
  }

  // ------------------------------------------- confusion while the journal is replayed

  /** The record is written again and its journal entry sent. */
  lemma EntrySent(s: State, net: Net) returns (events: seq<Event>)
    requires s.id == ID && |net.sent| == 2
    requires CoreOf(s) == Between(Part(1, map[], 1), 1, Waiting(Snapshot(1), true), net, map[PEER := Holder()])
    ensures Leads(s, events,
      Between(Part(2, map[2 := KEY], 2), 2, Waiting(Changing(1, 2), false), Posted(net, Batch(2), {2}), map[PEER := Holder()]))
  {
    events := [Write(KEY, Version(2))];
    WriteLeads(s, 2);
    var s1 := After(s, events);
    var sent := CoreOf(s1).(sync := Waiting(Changing(1, 2), false), pc := Ticking({}), net := map[PEER := Posted(net, Batch(2), {2})]);
    forall t: State | t.id == s1.id && CoreOf(t) == Started(CoreOf(s1), Paging)
      ensures Leads(t, [StoreCall] + [StoreCall], sent)
    {
      DrainingLeads(t, net);
    }
    var tick := TickLeads(s1, false, [StoreCall] + [StoreCall], sent, Changing(1, 2));
    PrunedPart(2, map[2 := KEY], 2, 1, map[2 := KEY]);
    Then(s, events, tick, sent.(pc := Idle));
    events := events + tick;
  }

  /** Before that batch arrives, the other copy's acknowledgement is taken for it. */
  lemma ConfusedAcknowledgement(s: State, net: Net) returns (events: seq<Event>)
    requires s.id == ID && net == TWICE.(applied := {0, 1}, taken := {0})
    requires CoreOf(s) == Between(Part(1, map[], 1), 1, Waiting(Snapshot(1), true), net, map[PEER := Holder()])
    ensures Leads(s, events,
      Between(Part(2, map[2 := KEY], 2), 2, Waiting(Changing(1, 2), true),
              Posted(net, Batch(2), {2}).(taken := {0} + {1}, clean := false), map[PEER := Holder()]))
  {
    events := EntrySent(s, net);
    var s1 := After(s, events);
    var acknowledge := Acknowledge(PEER, 1, map[ID := KEY]);
    AcknowledgeLeads(s1, 1, Changing(1, 2), Posted(net, Batch(2), {2}));
    Then(s, events, [acknowledge], CoreOf(After(s1, [acknowledge])));
    events := events + [acknowledge];
  }

  lemma LastScan(s: State) returns (events: seq<Event>)
    requires s.pc == Idle && s.sync == Waiting(Changing(1, 2), true) && s.slot == Part(2, map[2 := KEY], 2)
    ensures Leads(s, events, CoreOf(s).(entry := true, pc := Serving({}, PEER, Settling, map[KEY := Version(2)])))
  {
    events := [BeginTick({PEER}, {PEER})] + [Serve(PEER, false)];
    ServeLeads(s, false);
    ChangePageOfOne(2, 2, 2, 2);
    DrainedLeads(After(s, events), 2, map[2 := KEY], Changing(1, 2), 2);
    Then(s, events, [StoreCall], CoreOf(s).(entry := true, pc := Serving({}, PEER, Settling, map[KEY := Version(2)])));
    events := events + [StoreCall];
  }

  /** The sender is about to declare complete a recipient that stores an older version
      than the last scan had in front of it. */
  ghost predicate CompletesEarly(s: State) {
    && Completes(s) && !CleanRun(s)
    && s.pc.seen == Records(s.slot)
    && !Dominates(PeerOf(s.peers, s.pc.n).high, s.pc.seen)
    && KEY in s.pc.seen && KEY in PeerOf(s.peers, s.pc.n).records
    && PeerOf(s.peers, s.pc.n).records[KEY].Version() < s.pc.seen[KEY].Version()
  }

  lemma LooksComplete(s: State, changes: map<nat, Key>, phase: Phase)
    requires s.slot == Part(2, changes, 2) && s.sync == Waiting(phase, true)
    requires s.pc == Serving({}, PEER, Settling, map[KEY := Version(2)])
    requires PEER in s.net && !s.net[PEER].clean && s.peers == map[PEER := Holder()]
    ensures CompletesEarly(s)
  {
    assert KEY in s.pc.seen && !Applied(Holder().high, KEY, s.pc.seen[KEY].Version());
  }

  /** With a resend, a completion can be declared while the recipient lacks a version
      that the last scan had in front of it: clean runs are not the only runs. */
  lemma ResendsCanCompleteEarly(s: State) returns (events: seq<Event>)
    requires Init(s) && s.id == ID && s.next == 0
    ensures Legal(s, events) && CompletesEarly(After(s, events))
  {
    events := SentTwice(s);
    var next := FirstAcknowledged(After(s, events));
    TickRuns.RunsCompose(s, events, next);
    events := events + next;
    next := ConfusedAcknowledgement(After(s, events), After(s, events).net[PEER]);
    TickRuns.RunsCompose(s, events, next);
    events := events + next;
    next := LastScan(After(s, events));
    TickRuns.RunsCompose(s, events, next);
    events := events + next;
    LooksComplete(After(s, events), map[2 := KEY], Changing(1, 2));
  }

  // -------------------------------------------- confusion between one run and the next

  /** The first run completes; the second acknowledgement is still on its way. */
  lemma FirstRunCompletes(s: State, net: Net) returns (events: seq<Event>)
    requires CoreOf(s) == Between(Part(1, map[], 1), 1, Waiting(Snapshot(1), true), net, map[PEER := Holder()])
    ensures Leads(s, events, Between(Part(1, map[], 1), 1, map[], net, map[PEER := Holder()]))
  {
    events := [BeginTick({PEER}, {PEER})] + [Serve(PEER, false)];
    ServeLeads(s, false);
    var next := ScanIsEmpty(After(s, events), 1);
    Then(s, events, next, CoreOf(s).(pc := Serving({}, PEER, Settling, map[KEY := Version(1)])));
    events := events + next;
    SettledLeads(After(s, events), map[KEY := Version(1)], Snapshot(1));
    Then(s, events, [StoreCall], CoreOf(s).(pc := Ticking({})));
    events := events + [StoreCall];
    var end := [EndRecipients(0)] + [Choose] + [Prune] + [Clean(true)];
    EndLeadsEmpty(After(s, events));
    PrunedPart(1, map[], 1, 1, map[]);
    Then(s, events, end, Between(Part(1, map[], 1), 1, map[], net, map[PEER := Holder()]));
    events := events + end;
  }

  /** After the one page, nothing is journaled. */
  lemma ScanIsEmpty(s: State, v: nat) returns (events: seq<Event>)
    requires s.pc == Serving({}, PEER, Paging, map[]) && s.sync == Waiting(Snapshot(v), true) && s.slot == Part(v, map[], v)
    ensures Leads(s, events, CoreOf(s).(pc := Serving({}, PEER, Settling, map[KEY := Version(v)])))
  {
    PagedLeads(s, v, map[], v);
    var s1 := After(s, [StoreCall]);
    NoChanges(v, v, v);
    DrainedLeads(s1, v, map[], Snapshot(v), v);
    events := [StoreCall] + [StoreCall];
    Then(s, [StoreCall], [StoreCall], CoreOf(After(s1, [StoreCall])));
  }

  /** A second run starts with a newer version; an acknowledgement of the first run is
      taken for its batch, and the next tick finds nothing more to send. */
  lemma LateAcknowledgement(s: State, net: Net, i: nat) returns (events: seq<Event>)
    requires s.id == ID && CoreOf(s) == Between(Part(1, map[], 1), 1, map[], net, map[PEER := Holder()])
    requires i < |net.sent| && net.sent[i] == Batch(1) && i in net.applied
    ensures Legal(s, events) && CompletesEarly(After(s, events))
  {
    events := RunStarted(s, 2);
    var posted := Posted(net.(clean := true), Batch(2), {|net.sent|});
    var s1 := After(s, events);
    var acknowledge := Acknowledge(PEER, i, map[ID := KEY]);
    AcknowledgeLeads(s1, i, Snapshot(2), posted);
    TickRuns.RunsCompose(s, events, [acknowledge]);
    events := events + [acknowledge];
    var s2 := After(s, events);
    var serve := [BeginTick({PEER}, {PEER})] + [Serve(PEER, false)];
    ServeLeads(s2, false);
    TickRuns.RunsCompose(s, events, serve);
    events := events + serve;
    var scan := ScanIsEmpty(After(s, events), 2);
    TickRuns.RunsCompose(s, events, scan);
    events := events + scan;
    LooksComplete(After(s, events), map[], Snapshot(2));
  }

  /** An acknowledgement left over from a completed run can complete the next run early:
      the first run's batch was resent, and its second copy is acknowledged late. */
  lemma EarlierRunsCanCompleteEarly(s: State) returns (events: seq<Event>)
    requires Init(s) && s.id == ID && s.next == 0
    ensures Legal(s, events) && CompletesEarly(After(s, events))
  {
    events := SentTwice(s);
    var next := FirstAcknowledged(After(s, events));
    TickRuns.RunsCompose(s, events, next);
    events := events + next;
    next := FirstRunCompletes(After(s, events), After(s, events).net[PEER]);
    TickRuns.RunsCompose(s, events, next);
    events := events + next;
    next := LateAcknowledgement(After(s, events), After(s, events).net[PEER], 1);
    TickRuns.RunsCompose(s, events, next);
    events := events + next;
  }

  /** The recipient disconnects while it is waited for. */
  lemma RunDropped(s: State, net: Net) returns (events: seq<Event>)
    requires CoreOf(s) == Between(Part(1, map[], 1), 1, Waiting(Snapshot(1), false), net, map[PEER := Holder()])
    ensures Leads(s, events, Between(Part(1, map[], 1), 1, map[], net, map[PEER := Holder()]))
  {
    events := [BeginTick({}, {})];
    Step(s, BeginTick({}, {}));
    var s1 := After(s, events);
    assert s1.sync == map[];
    EndLeadsEmpty(s1);
    PrunedPart(1, map[], 1, 1, map[]);
    var end := [EndRecipients(0)] + [Choose] + [Prune] + [Clean(true)];
    Then(s, events, end, Between(Part(1, map[], 1), 1, map[], net, map[PEER := Holder()]));
    events := events + end;
  }

  /** So can one left over from a run that was dropped while it waited, with no resend
      and with every batch acknowledged once. */
  lemma DroppedRunsCanCompleteEarly(s: State) returns (events: seq<Event>)
    requires Init(s) && s.id == ID && s.next == 0
    ensures Legal(s, events) && CompletesEarly(After(s, events))
  {
    events := RunStarted(s, 1);
    assert Posted(UNUSED, Batch(1), {0}) == ONCE;
    DeliverLeads(After(s, events), 0, ONCE);
    TickRuns.RunsCompose(s, events, [Deliver(PEER, 0)]);
    events := events + [Deliver(PEER, 0)];
    var next := RunDropped(After(s, events), After(s, events).net[PEER]);
    TickRuns.RunsCompose(s, events, next);
    events := events + next;
    next := LateAcknowledgement(After(s, events), After(s, events).net[PEER], 0);
    TickRuns.RunsCompose(s, events, next);
    events := events + next;
  }

  // ------------------------------------------------------- a writer in flight at a tick

  lemma Extend(s: State, events: seq<Event>, e: Event)
    requires Legal(s, events) && Enabled(After(s, events), e)
    ensures Legal(s, events + [e]) && After(s, events + [e]) == Apply(After(s, events), e)
  {
    TickRuns.OneStep(After(s, events), e);
    TickRuns.RunsCompose(s, events, [e]);
  }

  /** A record is stored, and an expiry writer enters. */
  lemma WriterEnters(s: State) returns (events: seq<Event>)
    requires Init(s) && s.id == ID && s.next == 0
    ensures Legal(s, events)
    ensures var end := After(s, events);
      && end.slot == Some(PartitionStore(map[KEY := Version(1)], map[1 := KEY], 1, 1))
      && end.pc == Idle && end.sync == map[] && end.peers == map[] && end.issued == {} && end.next == 1
  {
    events := [Write(KEY, Version(1))];
    TickRuns.OneStep(s, events[0]);
    Extend(s, events, ExpiryEnters);
    events := events + [ExpiryEnters];
  }

  lemma BusyServe(s: State) returns (events: seq<Event>)
    requires s.slot.Some? && s.pc == Idle && s.sync == map[]
    ensures Legal(s, events)
    ensures var end := After(s, events);
      && end.slot == s.slot && end.pc == Serving({}, PEER, Opening, map[]) && end.sync == map[] && end.entry
      && end.tick.targets == {PEER} && end.tick.done == {} && end.tick.tainted == {}
      && end.peers == s.peers && end.issued == s.issued && end.next == s.next
  {
    events := [BeginTick({PEER}, {PEER})];
    TickRuns.OneStep(s, events[0]);
    Extend(s, events, Serve(PEER, false));
    events := events + [Serve(PEER, false)];
  }

  lemma BusyTick(s: State) returns (events: seq<Event>)
    requires s.slot == Some(PartitionStore(map[KEY := Version(1)], map[1 := KEY], 1, 1)) && s.pc == Idle && s.sync == map[]
    ensures Legal(s, events)
    ensures var end := After(s, events);
      && end.slot == s.slot && end.pc == Ticking({}) && end.sync == map[] && end.entry
      && end.tick.targets == {PEER} && end.tick.done == {} && end.tick.tainted == {}
      && end.peers == s.peers && end.issued == s.issued && end.next == s.next
  {
    events := BusyServe(s);
    Extend(s, events, StoreCall);
    events := events + [StoreCall];
  }

  /** The tick finds it inside: the recipient is left for later, but the partition's
      entry has been made. */
  lemma LeftForLater(s: State) returns (events: seq<Event>)
    requires Init(s) && s.id == ID && s.next == 0
    ensures Legal(s, events)
    ensures var end := After(s, events);
      && end.slot == Some(PartitionStore(map[KEY := Version(1)], map[1 := KEY], 1, 1))
      && end.pc == Ticking({}) && end.sync == map[] && end.entry
      && end.tick.targets == {PEER} && end.tick.done == {} && end.tick.tainted == {}
      && end.peers == map[] && end.issued == {} && end.next == 1
  {
    events := WriterEnters(s);
    var tick := BusyTick(After(s, events));
    TickRuns.RunsCompose(s, events, tick);
    events := events + tick;
  }

  /** Then the writer leaves. */
  lemma WriterLeaves(s: State, before: seq<Event>) returns (events: seq<Event>)
    requires Legal(s, before)
    requires var mid := After(s, before);
      && mid.slot == Some(PartitionStore(map[KEY := Version(1)], map[1 := KEY], 1, 1))
      && mid.pc == Ticking({}) && mid.sync == map[] && mid.issued == {} && mid.next == 1
    ensures Legal(s, events)
    ensures var mid, end := After(s, before), After(s, events);
      && end.slot == Part(1, map[1 := KEY], 2) && end.pc == Choosing && end.sync == map[] && end.entry == mid.entry
      && end.tick == mid.tick.(calm := false) && end.peers == mid.peers
  {
    events := before;
    Extend(s, events, EndRecipients(0));
    events := events + [EndRecipients(0)];
    Extend(s, events, ExpiryNumbers);
    events := events + [ExpiryNumbers];
    Extend(s, events, ExpiryLeaves(2));
    events := events + [ExpiryLeaves(2)];
  }

  /** ... and the worker, which no longer owns the partition, is about to erase a record
      that nobody else has. */
  lemma WriterInFlightCanCostRecords(s: State) returns (events: seq<Event>)
    requires Init(s) && s.id == ID && s.next == 0
    ensures Legal(s, events)
    ensures var end := After(s, events);
      && Enabled(end, Event.Clean(false)) && Erases(end, false) && !end.tick.calm
      && PEER in end.tick.targets && PEER !in end.tick.done && PEER !in end.tick.tainted
      && KEY in Records(end.slot) && PeerOf(end.peers, PEER).records == map[]
  {
    events := LeftForLater(s);
    events := WriterLeaves(s, events);
    Extend(s, events, Choose);
    events := events + [Choose];
    Extend(s, events, Prune);
    events := events + [Prune];
  }
}
