/** One partition of one worker, migrating to any number of recipients while
    clients keep writing. Every call into the store is a step of its own; client
    writes, the phases of expiry removals, writes to other partitions and the
    network interleave freely between them. */
module Migration {
  import opened Common
  import opened StoreModel
  import opened SyncModel
  import opened Coverage

  /** All messages ever exchanged with a recipient, over any number of runs. Any batch
      may be delivered any number of times, in any order, or never; so may any
      acknowledgement of a batch that was delivered, however old. `taken` are the
      batches whose acknowledgement the sender has received. `good` are the batches
      that the step being waited for may rely on: while the snapshot is paged, those
      of the current run; while the journal is replayed, those sent for the stretch
      being confirmed that reach its end. `clean` is lost when a step is confirmed by
      the acknowledgement of any other batch, and regained when a run starts. */
  datatype Net = Net(sent: seq<seq<Wire>>, applied: set<nat>, taken: set<nat>, good: set<nat>, clean: bool)

  const UNUSED := Net([], {}, {}, {}, true)

  function NetOf(net: map<NodeId, Net>, n: NodeId): Net {
    if n in net then net[n] else UNUSED
  }

  /** A recipient: what it stores, the newest version of each key it has applied
      from a batch, and the keys it has ever expired. */
  datatype Peer = Peer(records: map<Key, Mutation>, high: map<Key, nat>, expired: set<Key>)

  /** The tick in progress: nobody else has touched the partition since it began
      (`calm`), whom it serves, and whose run it declared complete, with and
      without `clean`. */
  datatype Tick = Tick(calm: bool, targets: set<NodeId>, done: set<NodeId>, tainted: set<NodeId>)

  datatype Pc =
    | Idle
    | Ticking(todo: set<NodeId>)
    | Serving(todo: set<NodeId>, n: NodeId, job: Job, seen: map<Key, Mutation>)
    | Choosing
    | Pruning(through: nat)
    | Cleaning

  /** `issued` holds the revisions taken by expiry writers still in flight, `log`
      every journal entry made since the partition was last created, `declared`
      every completion declared by a clean run with the records that the last
      scan had in front of it. */
  datatype State = State(
    id: PartitionId,
    slot: Slot, next: nat, issued: set<nat>, log: map<nat, Key>,
    entry: bool, sync: map<NodeId, SyncState>,
    pc: Pc, tick: Tick,
    net: map<NodeId, Net>, peers: map<NodeId, Peer>,
    declared: set<(NodeId, map<Key, Mutation>)>)

  datatype Event =
    // clients, expiry and other partitions
    | Write(k: Key, m: Mutation)
    | ExpiryEnters
    | ExpiryRemoves(k: Key)
    | ExpiryNumbers
    | ExpiryLeaves(revision: nat)
    | DropEmpty
    | WriteElsewhere
    // the worker's service loop
    | BeginTick(connected: set<NodeId>, targets: set<NodeId>)
    | Serve(n: NodeId, timedOut: bool)
    | StoreCall
    | EndRecipients(through: nat)
    | Choose
    | Prune
    | Clean(owned: bool)
    | Acknowledge(n: NodeId, i: nat, reply: map<PartitionId, Key>)
    // recipients
    | Deliver(n: NodeId, i: nat)
    | PeerWrite(n: NodeId, k: Key, m: Mutation)
    | PeerExpire(n: NodeId, k: Key)

  function PeerOf(peers: map<NodeId, Peer>, n: NodeId): Peer {
    if n in peers then peers[n] else Peer(map[], map[], {})
  }

  function StateOf(sync: map<NodeId, SyncState>, n: NodeId): Option<SyncState> {
    if n in sync then Some(sync[n]) else None
  }

  predicate Busy(slot: Slot) {
    slot.Some? && slot.value.activeWriters != 0
  }

  /** A recipient applying a batch, record by record. */
  function TakeIn(peer: Peer, w: Wire): Peer {
    peer.(records := Merge(peer.records, w.key, FromWire(w)),
          high := peer.high[w.key :=
            if w.key in peer.high && w.creationTimeMs < peer.high[w.key] then peer.high[w.key]
            else w.creationTimeMs])
  }

  function Absorb(peer: Peer, batch: seq<Wire>): Peer
    decreases |batch|
  {
    if batch == [] then peer else Absorb(TakeIn(peer, batch[0]), batch[1..])
  }

  // ------------------------------------------------------------------- steps

  predicate CanCall(s: State) {
    s.pc.Serving? && Fits(s.pc.job, StateOf(s.sync, s.pc.n)) && !s.pc.job.Finished?
  }

  ghost predicate Enabled(s: State, e: Event) {
    match e
    // Writes and partition removals hold the partition exclusively, so they wait
    // for every expiry writer, which holds it shared.
    case Write(k, _) => PartitionOf(k) == s.id && !Busy(s.slot)
    case ExpiryEnters => s.slot.Some?
    case ExpiryRemoves(k) =>
      && Busy(s.slot) && k in Records(s.slot)
      && Records(s.slot)[k].Put? && Records(s.slot)[k].record.expirationTimeMs != 0
    case ExpiryNumbers => s.slot.Some? && |s.issued| < s.slot.value.activeWriters
    case ExpiryLeaves(revision) => Busy(s.slot) && revision in s.issued
    case DropEmpty => s.slot.Some? && !Busy(s.slot) && Records(s.slot) == map[]
    case WriteElsewhere => true
    case BeginTick(connected, targets) => s.pc.Idle? && targets <= connected
    case Serve(n, _) => s.pc.Ticking? && n in s.pc.todo
    case StoreCall => CanCall(s)
    case EndRecipients(through) =>
      s.pc == Ticking({}) && (Unconfirmed(s.sync) != map[] ==> IsLeastCursor(Unconfirmed(s.sync), through))
    case Choose => s.pc.Choosing?
    case Prune => s.pc.Pruning?
    case Clean(owned) => s.pc.Cleaning? && (Erases(s, owned) ==> !Busy(s.slot))
    case Acknowledge(n, i, reply) =>
      s.pc.Idle? && n in s.net && i in s.net[n].applied && i < |s.net[n].sent| && IsReply(s.net[n].sent[i], reply)
    case Deliver(n, i) => n in s.net && i < |s.net[n].sent|
    case PeerWrite(_, _, _) => true
    case PeerExpire(n, k) => n in s.peers && k in s.peers[n].records
  }

  function Disturbed(s: State): State {
    s.(tick := s.tick.(calm := false))
  }

  /** A resent stretch of the journal must reach the revision being confirmed. */
  ghost predicate ReachesPending(job: Job, state: Option<SyncState>, slot: Slot) {
    job.Redraining? && state.Some? && state.value.phase.Changing?
    && ChangePage(slot, job.cursor, SYNC_BATCH_SIZE).Some? ==>
      state.value.phase.pendingRevision <= ChangePage(slot, job.cursor, SYNC_BATCH_SIZE).value.0
  }

  /** Sending one more batch. */
  function Posted(net: Net, batch: seq<Wire>, good: set<nat>): Net {
    net.(sent := net.sent + [batch], good := good)
  }

  /** A run's first batch, and the first batch of a stretch of the journal, start afresh;
      a further page and a repeated batch join those before, unless a repeated stretch
      of the journal is too short. */
  ghost function GoodAfter(net: Net, job: Job, state: Option<SyncState>, slot: Slot): set<nat> {
    if job.Starting? || job.Draining? then {|net.sent|}
    else if ReachesPending(job, state, slot) then net.good + {|net.sent|}
    else net.good
  }

  /** The messages exchanged with the recipient being served, once its job stands at `l`. */
  ghost function NetAfter(s: State, l: Local): map<NodeId, Net>
    requires s.pc.Serving?
  {
    var n, job := s.pc.n, s.pc.job;
    var net := NetOf(s.net, n);
    if l.sent.None? then s.net
    else s.net[n := Posted(net.(clean := job.Starting? || net.clean), l.sent.value,
                           GoodAfter(net, job, StateOf(s.sync, n), s.slot))]
  }

  function SyncAfter(sync: map<NodeId, SyncState>, n: NodeId, state: Option<SyncState>): map<NodeId, SyncState> {
    if state.Some? && state != StateOf(sync, n) then sync[n := state.value] else sync
  }

  /** The service loop goes on with its job at `l`. */
  ghost function AfterLocal(s: State, l: Local): State
    requires s.pc.Serving?
  {
    var n := s.pc.n;
    var seen := if l.job.Settling? || l.job.StartedEmpty? then Records(s.slot) else s.pc.seen;
    var completed := l.job == Finished(true);
    var clean := s.pc.job.StartedEmpty? || NetOf(s.net, n).clean;
    s.(sync := SyncAfter(s.sync, n, l.state),
       net := NetAfter(s, l),
       pc := if l.job.Finished? then Ticking(s.pc.todo) else Serving(s.pc.todo, n, l.job, seen),
       declared := if completed && clean then s.declared + {(n, seen)} else s.declared,
       tick := if !completed then s.tick
               else if clean then s.tick.(done := s.tick.done + {n})
               else s.tick.(tainted := s.tick.tainted + {n}))
  }

  function LocalOf(s: State): Local
    requires s.pc.Serving?
  {
    Local(s.pc.job, StateOf(s.sync, s.pc.n), None)
  }

  ghost function AfterCall(s: State): State
    requires CanCall(s)
  {
    AfterLocal(s, Advance(LocalOf(s), s.slot))
  }

  /** A step is confirmed by the acknowledgement of a batch it must not rely on. */
  predicate Confuses(before: SyncState, after: SyncState, net: Net, i: nat) {
    !before.confirmed && after.confirmed && i !in net.good
  }

  ghost function AfterAcknowledge(s: State, n: NodeId, i: nat, reply: map<PartitionId, Key>): State
    requires n in s.net && i < |s.net[n].sent|
  {
    var net := s.net[n].(taken := s.net[n].taken + {i});
    if s.id in reply && n in s.sync then
      var before := s.sync[n];
      var after := Acknowledged(before, reply[s.id]);
      s.(sync := s.sync[n := after],
         net := s.net[n := net.(clean := net.clean && !Confuses(before, after, net, i))])
    else s.(net := s.net[n := net])
  }

  function AfterWrite(s: State, k: Key, m: Mutation): State {
    Disturbed(s).(slot := Written(s.slot, s.next, k, m), next := s.next + 1, log := s.log[s.next + 1 := k])
  }

  function AfterExpiryEnters(s: State): State
    requires s.slot.Some?
  {
    Disturbed(s).(slot := Some(s.slot.value.(activeWriters := s.slot.value.activeWriters + 1)))
  }

  function AfterExpiryRemoves(s: State, k: Key): State
    requires s.slot.Some?
  {
    Disturbed(s).(slot := Some(s.slot.value.(records := s.slot.value.records - {k})))
  }

  function AfterExpiryNumbers(s: State): State {
    Disturbed(s).(next := s.next + 1, issued := s.issued + {s.next + 1})
  }

  function AfterExpiryLeaves(s: State, revision: nat): State
    requires s.slot.Some? && s.slot.value.activeWriters > 0
  {
    var part := s.slot.value;
    Disturbed(s).(slot := Some(part.(revision := revision, activeWriters := part.activeWriters - 1)),
                  issued := s.issued - {revision})
  }

  function AfterDrop(s: State): State {
    Disturbed(s).(slot := None, log := map[])
  }

  function AfterBegin(s: State, connected: set<NodeId>, targets: set<NodeId>): State {
    s.(sync := map n | n in s.sync && n in connected :: s.sync[n],
       pc := Ticking(targets),
       tick := Tick(!Busy(s.slot), targets, {}, {}))
  }

  function AfterServe(s: State, n: NodeId, timedOut: bool): State
    requires s.pc.Ticking?
  {
    var l := Begin(StateOf(s.sync, n), timedOut);
    s.(entry := true,
       pc := if l.job.Finished? then Ticking(s.pc.todo - {n})
             else Serving(s.pc.todo - {n}, n, l.job, map[]))
  }

  function AfterRecipients(s: State, through: nat): State {
    var rest := Unconfirmed(s.sync);
    s.(sync := rest, pc := if rest == map[] then Choosing else Pruning(through))
  }

  function AfterChoose(s: State): State {
    s.(pc := if Stable(s.slot).Some? then Pruning(Stable(s.slot).value) else Cleaning)
  }

  function AfterPrune(s: State): State
    requires s.pc.Pruning?
  {
    s.(slot := Pruned(s.slot, s.pc.through), pc := Cleaning)
  }

  predicate Erases(s: State, owned: bool) {
    s.entry && s.sync == map[] && !owned
  }

  function AfterClean(s: State, owned: bool): State {
    var s' := s.(entry := s.entry && s.sync != map[], pc := Idle);
    if Erases(s, owned) then s'.(slot := None, log := map[], issued := {}) else s'
  }

  function AfterDeliver(s: State, n: NodeId, i: nat): State
    requires n in s.net && i < |s.net[n].sent|
  {
    s.(peers := s.peers[n := Absorb(PeerOf(s.peers, n), s.net[n].sent[i])],
       net := s.net[n := s.net[n].(applied := s.net[n].applied + {i})])
  }

  function AfterPeerWrite(s: State, n: NodeId, k: Key, m: Mutation): State {
    var peer := PeerOf(s.peers, n);
    s.(peers := s.peers[n := peer.(records := Merge(peer.records, k, m))])
  }

  function AfterPeerExpire(s: State, n: NodeId, k: Key): State {
    var peer := PeerOf(s.peers, n);
    s.(peers := s.peers[n := peer.(records := peer.records - {k}, expired := peer.expired + {k})])
  }

  ghost function Apply(s: State, e: Event): State
    requires Enabled(s, e)
  {
    match e
    case Write(k, m) => AfterWrite(s, k, m)
    case ExpiryEnters => AfterExpiryEnters(s)
    case ExpiryRemoves(k) => AfterExpiryRemoves(s, k)
    case ExpiryNumbers => AfterExpiryNumbers(s)
    case ExpiryLeaves(revision) => AfterExpiryLeaves(s, revision)
    case DropEmpty => AfterDrop(s)
    case WriteElsewhere => s.(next := s.next + 1)
    case BeginTick(connected, targets) => AfterBegin(s, connected, targets)
    case Serve(n, timedOut) => AfterServe(s, n, timedOut)
    case StoreCall => AfterCall(s)
    case EndRecipients(through) => AfterRecipients(s, through)
    case Choose => AfterChoose(s)
    case Prune => AfterPrune(s)
    case Clean(owned) => AfterClean(s, owned)
    case Acknowledge(n, i, reply) => AfterAcknowledge(s, n, i, reply)
    case Deliver(n, i) => AfterDeliver(s, n, i)
    case PeerWrite(n, k, m) => AfterPeerWrite(s, n, k, m)
    case PeerExpire(n, k) => AfterPeerExpire(s, n, k)
  }

  /** A worker that holds nothing of the partition and migrates nothing. Revisions
      may already have been spent on other partitions. */
  ghost predicate Init(s: State) {
    && s.slot == None && s.issued == {} && s.log == map[]
    && s.entry == false && s.sync == map[] && s.pc == Idle
    && s.net == map[] && s.peers == map[] && s.declared == {}
  }

  ghost predicate Legal(s: State, events: seq<Event>)
    decreases |events|
  {
    events == [] || (Enabled(s, events[0]) && Legal(Apply(s, events[0]), events[1..]))
  }

  ghost function After(s: State, events: seq<Event>): State
    requires Legal(s, events)
    decreases |events|
  {
    if events == [] then s else After(Apply(s, events[0]), events[1..])
  }

  // -------------------------------------------------------------- invariants

  ghost predicate StoreInv(id: PartitionId, slot: Slot, next: nat, issued: set<nat>, log: map<nat, Key>) {
    && (forall r :: r in Changes(slot) ==> r in log && log[r] == Changes(slot)[r])
    && (forall r :: r in log ==> 0 < r <= next && PartitionOf(log[r]) == id)
    && (forall k :: k in Records(slot) ==> PartitionOf(k) == id)
    && (slot.None? ==> log == map[] && issued == {})
    && (forall i :: i in issued ==> i <= next)
    && (forall i, r :: i in issued && r in log ==> r < i)
    && (slot.Some? ==>
          && slot.value.revision <= next
          && |issued| <= slot.value.activeWriters
          && (!Busy(slot) ==> forall r :: r in log ==> r <= slot.value.revision))
  }

  ghost predicate PeerInv(peer: Peer) {
    forall k :: k in peer.high ==>
      (k in peer.records && peer.high[k] <= peer.records[k].Version()) || k in peer.expired
  }

  ghost predicate PeersInv(peers: map<NodeId, Peer>) {
    forall n :: n in peers ==> PeerInv(peers[n])
  }

  ghost predicate BatchIn(id: PartitionId, batch: seq<Wire>) {
    forall j :: 0 <= j < |batch| ==> PartitionOf(batch[j].key) == id
  }

  ghost predicate NetInv(id: PartitionId, net: Net, high: map<Key, nat>) {
    && net.sent != []
    && (forall i :: 0 <= i < |net.sent| ==> net.sent[i] != [] && BatchIn(id, net.sent[i]))
    && (forall i :: i in net.applied ==> i < |net.sent| && BatchApplied(high, net.sent[i]))
    && (forall i :: i in net.good ==> i < |net.sent|)
  }

  ghost predicate NetsInv(id: PartitionId, net: map<NodeId, Net>, peers: map<NodeId, Peer>) {
    forall n :: n in net ==> NetInv(id, net[n], PeerOf(peers, n).high)
  }

  function Last(net: Net): seq<Wire>
    requires net.sent != []
  {
    net.sent[|net.sent| - 1]
  }

  /** Every batch ever sent to the recipient is one to rely on. */
  ghost predicate AllGood(net: Net) {
    forall i :: 0 <= i < |net.sent| ==> i in net.good
  }

  ghost predicate AllCover(slot: Slot, high: map<Key, nat>, r: nat, net: Net) {
    forall i :: i in net.good ==> i < |net.sent| && Covers(slot, high, r, net.sent[i])
  }

  ghost predicate AllCarry(slot: Slot, high: map<Key, nat>, r: nat, net: Net) {
    forall i :: i in net.good ==> i < |net.sent| && Carries(slot, high, r, net.sent[i])
  }

  ghost predicate SnapshotInv(slot: Slot, next: nat, s: SyncState, net: Net, high: map<Key, nat>, r: nat) {
    && r <= next
    && (AllGood(net) ==> net.clean)
    && (net.clean ==>
          && HeldUpTo(slot, high, Bound(s.prevMaxKey), r)
          && AllCover(slot, high, r, net)
          && (s.confirmed ==> HeldUpTo(slot, high, s.currMaxKey, r)))
  }

  ghost predicate ChangingInv(
      slot: Slot, next: nat, s: SyncState, net: Net, high: map<Key, nat>, confirmed: nat, pending: nat)
  {
    && confirmed <= pending <= next
    && (net.clean ==>
          && Settled(slot, high, confirmed)
          && AllCarry(slot, high, pending, net)
          && (s.confirmed ==> Settled(slot, high, pending)))
  }

  ghost predicate RunInv(id: PartitionId, slot: Slot, next: nat, s: SyncState, net: Net, high: map<Key, nat>) {
    && NetInv(id, net, high)
    && s.currMaxKey == MaxKey(Last(net))
    && match s.phase
       case Snapshot(r) => SnapshotInv(slot, next, s, net, high, r)
       case Changing(c, p) => ChangingInv(slot, next, s, net, high, c, p)
  }

  ghost predicate RunsInv(
      id: PartitionId, slot: Slot, next: nat, sync: map<NodeId, SyncState>, net: map<NodeId, Net>, peers: map<NodeId, Peer>)
  {
    forall n :: n in sync ==> n in net && RunInv(id, slot, next, sync[n], net[n], PeerOf(peers, n).high)
  }

  ghost predicate JobInv(
      slot: Slot, next: nat, job: Job, seen: map<Key, Mutation>, state: Option<SyncState>, clean: bool, high: map<Key, nat>)
  {
    && Fits(job, state)
    && match job
       case Starting(r) => r <= next
       case StartedEmpty(r) => r <= next && seen == map[]
       case Draining(from, cursor) =>
         && Cursor(state.value) <= from <= cursor <= next
         && (clean ==> Settled(slot, high, cursor))
       case Redraining(cursor) =>
         && Cursor(state.value) <= cursor <= next
         && (clean ==> Settled(slot, high, cursor))
       case Settling => clean ==> Dominates(high, seen)
       case _ => true
  }

  ghost predicate PcInv(
      pc: Pc, slot: Slot, next: nat, sync: map<NodeId, SyncState>, net: map<NodeId, Net>, peers: map<NodeId, Peer>)
  {
    match pc
    case Serving(_, n, job, seen) =>
      && !job.Finished?
      && JobInv(slot, next, job, seen, StateOf(sync, n), n in net && net[n].clean, PeerOf(peers, n).high)
    case Pruning(through) => forall n :: n in sync ==> through <= Cursor(sync[n])
    case Choosing => sync == map[]
    case _ => true
  }

  /** No journal entry above `cursor` has been pruned. */
  ghost predicate Retained(slot: Slot, log: map<nat, Key>, cursor: nat) {
    forall r :: r in log && cursor < r ==> r in Changes(slot)
  }

  ghost predicate HistoryInv(slot: Slot, log: map<nat, Key>, sync: map<NodeId, SyncState>, pc: Pc) {
    && (forall n :: n in sync ==> Retained(slot, log, Cursor(sync[n])))
    && (pc.Serving? && pc.job.Starting? ==> Retained(slot, log, pc.job.revision))
  }

  ghost predicate DeclaredInv(declared: set<(NodeId, map<Key, Mutation>)>, peers: map<NodeId, Peer>) {
    forall d :: d in declared ==> Dominates(PeerOf(peers, d.0).high, d.1)
  }

  /** The tick has dealt with `o`: its run goes on, or is declared complete. */
  ghost predicate Served(
      tick: Tick, slot: Slot, sync: map<NodeId, SyncState>, declared: set<(NodeId, map<Key, Mutation>)>, o: NodeId)
  {
    || (o in sync && !sync[o].confirmed)
    || (o in tick.done && (o, Records(slot)) in declared)
    || o in tick.tainted
  }

  function Awaiting(pc: Pc): set<NodeId> {
    match pc
    case Ticking(todo) => todo
    case Serving(todo, n, _, _) => todo + {n}
    case _ => {}
  }

  ghost predicate CalmInv(
      tick: Tick, pc: Pc, slot: Slot, sync: map<NodeId, SyncState>, declared: set<(NodeId, map<Key, Mutation>)>)
  {
    tick.calm && !pc.Idle? ==>
      && !Busy(slot)
      && (forall o :: o in tick.targets ==> o in Awaiting(pc) || Served(tick, slot, sync, declared, o))
      && (pc.Serving? ==>
            match pc.job
            case Starting(r) => Stable(slot) == Some(r)
            case StartedEmpty(r) => Stable(slot) == Some(r) && pc.seen == Records(slot)
            case Settling => pc.seen == Records(slot)
            case _ => true)
  }

  /** Nothing is stored at revision `r`. */
  ghost predicate EmptyAt(slot: Slot, r: nat) {
    slot.Some? && slot.value.revision == r ==> Records(slot) == map[]
  }

  /** The revision a run is about to start from was published and will not be published
      again; once nothing was found to send, nothing is stored at it. */
  ghost predicate StartInv(pc: Pc, slot: Slot, next: nat, issued: set<nat>) {
    && (pc.Serving? && pc.job.Starting? ==> pc.job.revision <= next && pc.job.revision !in issued)
    && (pc.Serving? && pc.job.StartedEmpty? ==>
          pc.job.revision <= next && pc.job.revision !in issued && EmptyAt(slot, pc.job.revision))
  }

  ghost predicate Inv(s: State) {
    && StoreInv(s.id, s.slot, s.next, s.issued, s.log)
    && NetsInv(s.id, s.net, s.peers)
    && RunsInv(s.id, s.slot, s.next, s.sync, s.net, s.peers)
    && PcInv(s.pc, s.slot, s.next, s.sync, s.net, s.peers)
    && HistoryInv(s.slot, s.log, s.sync, s.pc)
    && DeclaredInv(s.declared, s.peers)
    && CalmInv(s.tick, s.pc, s.slot, s.sync, s.declared)
    && StartInv(s.pc, s.slot, s.next, s.issued)
    && PeersInv(s.peers)
  }
}
