/** The client: accepting cluster states, choosing whom to ask, and folding answers. */
module ClientModel {
  import opened Common
  import opened StoreModel
  import opened SyncModel
  import opened Convergence
  import opened Placement
  import opened Topology
  import Electing = ElectionModel

  /** What a worker stores, seen from the client: one map per worker. */
  type Stores = map<NodeId, map<Key, Mutation>>

  datatype Response = Answered(record: Option<Wire>) | Failed

  datatype GetResult = Value(value: Option<seq<Byte>>) | Error

  /** A worker's answer to a read, with no expiry: a tombstone is answered as a deleted
      record stamped with its deletion time. */
  function Answer(records: map<Key, Mutation>, k: Key): Option<Wire> {
    if k !in records then None
    else
      match records[k]
      case Put(r) => Some(Wire(k, r.value, r.expirationTimeMs, r.creationTimeMs, false))
      case Delete(t) => Some(Wire(0, [], 0, t, true))
  }

  function Shown(w: Wire): Option<seq<Byte>> {
    if w.deleted then None else Some(w.value)
  }

  /** `w` is the first of the newest records among the answers. */
  ghost predicate IsNewest(responses: seq<Response>, w: Option<Wire>) {
    match w
    case None => forall i :: 0 <= i < |responses| ==> responses[i] == Failed || responses[i] == Answered(None)
    case Some(n) =>
      && (exists i :: 0 <= i < |responses| && responses[i] == Answered(Some(n)) &&
            forall j :: 0 <= j < i && responses[j].Answered? && responses[j].record.Some? ==>
              responses[j].record.value.creationTimeMs < n.creationTimeMs)
      && (forall i :: 0 <= i < |responses| && responses[i].Answered? && responses[i].record.Some? ==>
            responses[i].record.value.creationTimeMs <= n.creationTimeMs)
  }

  /** Folding the fallback answers: the newest record wins, an earlier answer wins a
      tie, and one answer is enough not to fail. */
  method FoldAnswers(responses: seq<Response>) returns (newest: Option<Wire>, successful: bool)
    ensures IsNewest(responses, newest)
    ensures successful <==> exists i :: 0 <= i < |responses| && responses[i].Answered?
  {
    newest, successful := None, false;
    for i := 0 to |responses|
      invariant IsNewest(responses[..i], newest)
      invariant successful <==> exists j :: 0 <= j < i && responses[j].Answered?
    {
      ghost var front := responses[..i];
      assert responses[..i + 1] == front + [responses[i]];
      if responses[i].Answered? {
        successful := true;
        var record := responses[i].record;
        if record.Some? && (newest.None? || newest.value.creationTimeMs < record.value.creationTimeMs) {
          NewestReplaced(front, newest, responses[i]);
          newest := record;
        } else {
          NewestKept(front, newest, responses[i]);
        }
      } else {
        NewestKept(front, newest, responses[i]);
      }
    }
    assert responses[..|responses|] == responses;
  }

  lemma NewestReplaced(front: seq<Response>, newest: Option<Wire>, r: Response)
    requires IsNewest(front, newest) && r.Answered? && r.record.Some?
    requires newest.None? || newest.value.creationTimeMs < r.record.value.creationTimeMs
    ensures IsNewest(front + [r], r.record)
  {
    var all := front + [r];
    assert all[|front|] == r;
    forall j | 0 <= j < |front| && all[j].Answered? && all[j].record.Some?
      ensures all[j].record.value.creationTimeMs < r.record.value.creationTimeMs
    {
      assert all[j] == front[j];
    }
  }

  lemma NewestKept(front: seq<Response>, newest: Option<Wire>, r: Response)
    requires IsNewest(front, newest)
    requires r.Answered? && r.record.Some? ==>
      newest.Some? && r.record.value.creationTimeMs <= newest.value.creationTimeMs
    ensures IsNewest(front + [r], newest)
  {
    var all := front + [r];
    if newest.Some? {
      var n := newest.value;
      var i :| 0 <= i < |front| && front[i] == Answered(Some(n)) &&
        forall j :: 0 <= j < i && front[j].Answered? && front[j].record.Some? ==>
          front[j].record.value.creationTimeMs < n.creationTimeMs;
      assert all[i] == Answered(Some(n));
    }
  }

  /** A read: the master's record settles it; otherwise the fallbacks are folded. */
  method Get(primary: Response, fallback: seq<Response>) returns (r: GetResult)
    ensures primary.Failed? ==> r == Error
    ensures primary.Answered? && primary.record.Some? ==> r == Value(Shown(primary.record.value))
    ensures primary.Answered? && primary.record.Some? && primary.record.value.deleted ==> r == Value(None)
    ensures primary.Answered? && primary.record.Some? && !primary.record.value.deleted ==> r == Value(Some(primary.record.value.value))
    ensures primary == Answered(None) && (exists i :: 0 <= i < |fallback| && fallback[i].Answered?) ==>
      exists w :: IsNewest(fallback, w) && r == Value(if w.Some? then Shown(w.value) else None)
    ensures primary == Answered(None) && fallback == [] ==> r == Value(None)
    ensures primary == Answered(None) && fallback != [] && (forall i :: 0 <= i < |fallback| ==> fallback[i].Failed?) ==>
      r == Error
  {
    if primary.Failed? {
      return Error;
    }
    if primary.record.Some? {
      return Value(Shown(primary.record.value));
    }
    if fallback == [] {
      return Value(None);
    }
    var newest, successful := FoldAnswers(fallback);
    if successful {
      r := Value(if newest.Some? then Shown(newest.value) else None);
    } else {
      r := Error;
    }
  }

  // ------------------------------------------------------------- the client's topology

  /** A node as a cluster state lists it, with or without an address. */
  datatype Listing = Listing(kind: Electing.Kind, addressed: bool)

  function Addressed(items: map<NodeId, Listing>): map<NodeId, Electing.Kind> {
    map n | n in items && items[n].addressed :: items[n].kind
  }

  class KnownTopology {
    var epoch: nat
    var leader: Option<NodeId>
    var nodes: map<NodeId, Electing.Kind>
    var table: Partitions

    constructor ()
      ensures Known() == Electing.Client(0, None) && table == Partitions(map[], map[], map[])
    {
      epoch, leader, nodes, table := 0, None, map[], Partitions(map[], map[], map[]);
    }

    function Known(): Electing.Client
      reads this
    {
      Electing.Client(epoch, leader)
    }

    /** Takes a cluster state unless it is of an earlier epoch, or of another leader of
        the same epoch; an update without nodes keeps the ones known, and a node without
        an address is passed over. */
    method ApplyState(newEpoch: nat, leaderId: Option<NodeId>, items: map<NodeId, Listing>, partitions: Option<Partitions>)
      modifies this
      ensures Known() == Electing.ClientApply(old(Known()), newEpoch, leaderId)
      ensures Known() == Electing.Client(newEpoch, leaderId) ==>
        && nodes == (if items == map[] then old(nodes) else Addressed(items))
        && table == (if partitions.Some? then partitions.value else old(table))
      ensures Known() != Electing.Client(newEpoch, leaderId) ==> nodes == old(nodes) && table == old(table)
    {
      if newEpoch < epoch || (newEpoch == epoch && leader.Some? && leader != leaderId) {
        return;
      }
      epoch, leader := newEpoch, leaderId;
      if items != map[] {
        nodes := Addressed(items);
      }
      if partitions.Some? {
        table := partitions.value;
      }
    }
  }

  // ----------------------------------------------------------- reads never go back

  /** One write arriving at one worker, from a client or a migration. */
  datatype Arrival = Arrival(n: NodeId, k: Key, m: Mutation)

  function StoreOf(stores: Stores, n: NodeId): map<Key, Mutation> {
    if n in stores then stores[n] else map[]
  }

  function Arrived(stores: Stores, arrivals: seq<Arrival>): Stores {
    if arrivals == [] then stores
    else
      var before := Arrived(stores, arrivals[..|arrivals| - 1]);
      var a := arrivals[|arrivals| - 1];
      before[a.n := Merge(StoreOf(before, a.n), a.k, a.m)]
  }

  /** The workers a write goes to, and must all acknowledge. */
  function WriteTargets(t: Partitions, p: PartitionId): Option<set<NodeId>> {
    if p in t.mapping then Some(Owners(t.mapping[p])) else None
  }

  lemma {:induction false} ArrivalsLast(stores: Stores, arrivals: seq<Arrival>, i: nat)
    requires i < |arrivals|
    ensures var a := arrivals[i];
      && a.k in StoreOf(Arrived(stores, arrivals), a.n)
      && a.m.Version() <= StoreOf(Arrived(stores, arrivals), a.n)[a.k].Version()
  {
    var front := arrivals[..|arrivals| - 1];
    if i < |front| {
      ArrivalsLast(stores, front, i);
      assert front[i] == arrivals[i];
    }
  }

  /** Reads never go back under a fixed topology: once every owner has acknowledged a
      write, whatever arrives anywhere before or after, a read of the key is answered
      by the master from a mutation of at least that version. */
  lemma ReadsNeverGoBack(stores: Stores, t: Partitions, k: Key, m: Mutation, arrivals: seq<Arrival>)
    requires PartitionOf(k) in t.mapping
    requires forall o :: o in WriteTargets(t, PartitionOf(k)).value ==> Arrival(o, k, m) in arrivals
    ensures var master := ReadTargets(t, PartitionOf(k)).value.0;
      var answer := Answer(StoreOf(Arrived(stores, arrivals), master), k);
      answer.Some? && m.Version() <= answer.value.creationTimeMs
  {
    var master := t.mapping[PartitionOf(k)].master;
    assert Arrival(master, k, m) in arrivals;
    var i :| 0 <= i < |arrivals| && arrivals[i] == Arrival(master, k, m);
    ArrivalsLast(stores, arrivals, i);
  }

  /** When the master has nothing and every fallback answers, a read shows the newest
      mutation over the fallback stores, and shows a newest tombstone as absent. */
  lemma FallbackReadsShowTheNewest(stores: Stores, fallback: seq<NodeId>, k: Key, responses: seq<Response>, w: Option<Wire>)
    requires |responses| == |fallback|
    requires forall i :: 0 <= i < |fallback| ==> responses[i] == Answered(Answer(StoreOf(stores, fallback[i]), k))
    requires IsNewest(responses, w)
    ensures w.None? <==> forall i :: 0 <= i < |fallback| ==> k !in StoreOf(stores, fallback[i])
    ensures w.Some? ==>
      && (exists i :: 0 <= i < |fallback| && k in StoreOf(stores, fallback[i]) && Answer(StoreOf(stores, fallback[i]), k) == w)
      && (forall i :: 0 <= i < |fallback| && k in StoreOf(stores, fallback[i]) ==>
            StoreOf(stores, fallback[i])[k].Version() <= w.value.creationTimeMs)
  {
    forall i | 0 <= i < |fallback| && k in StoreOf(stores, fallback[i])
      ensures w.Some? && StoreOf(stores, fallback[i])[k].Version() <= w.value.creationTimeMs
    {
      assert responses[i].record.Some?;
    }
    if w.Some? {
      var i :| 0 <= i < |responses| && responses[i] == Answered(Some(w.value));
      assert k in StoreOf(stores, fallback[i]);
    }
  }

  // -------------------------------------------------------------- reads over the stores

  /** What a read makes of a stored mutation. */
  ghost predicate Reads(m: Mutation, r: GetResult) {
    match m
    case Put(record) => r == Value(Some(record.value))
    case Delete(_) => r == Value(None)
  }

  /** `i` is a fallback that stores the key in a version no other fallback exceeds. */
  ghost predicate StoresNewest(stores: Stores, fallback: seq<NodeId>, k: Key, i: nat) {
    && i < |fallback| && k in StoreOf(stores, fallback[i])
    && forall j :: 0 <= j < |fallback| && k in StoreOf(stores, fallback[j]) ==>
         StoreOf(stores, fallback[j])[k].Version() <= StoreOf(stores, fallback[i])[k].Version()
  }

  /** An answered mutation is read as what it is, and dated by its version. */
  lemma AnswersRead(records: map<Key, Mutation>, k: Key)
    requires k in records
    ensures Answer(records, k).Some? && Answer(records, k).value.creationTimeMs == records[k].Version()
    ensures Reads(records[k], Value(Shown(Answer(records, k).value)))
  {
  }

  lemma NewestIsStored(stores: Stores, fallback: seq<NodeId>, k: Key, responses: seq<Response>, w: Option<Wire>)
    requires |responses| == |fallback|
    requires forall i :: 0 <= i < |fallback| ==> responses[i] == Answered(Answer(StoreOf(stores, fallback[i]), k))
    requires IsNewest(responses, w)
    ensures w.None? ==> forall i :: 0 <= i < |fallback| ==> k !in StoreOf(stores, fallback[i])
    ensures w.Some? ==> exists i: nat ::
      StoresNewest(stores, fallback, k, i) && Reads(StoreOf(stores, fallback[i])[k], Value(Shown(w.value)))
  {
    FallbackReadsShowTheNewest(stores, fallback, k, responses, w);
    if w.Some? {
      var i :| 0 <= i < |fallback| && k in StoreOf(stores, fallback[i]) && Answer(StoreOf(stores, fallback[i]), k) == w;
      AnswersRead(StoreOf(stores, fallback[i]), k);
      assert StoresNewest(stores, fallback, k, i);
    }
  }

  /** A read when every worker asked answers: what the master stores settles it; if the
      master has nothing, a newest mutation over the fallback stores does; a tombstone
      reads as absent either way, and so does a key that nobody stores. */
  method Read(stores: Stores, master: NodeId, fallback: seq<NodeId>, k: Key) returns (r: GetResult)
    ensures k in StoreOf(stores, master) ==> Reads(StoreOf(stores, master)[k], r)
    ensures k !in StoreOf(stores, master) && (forall i :: 0 <= i < |fallback| ==> k !in StoreOf(stores, fallback[i])) ==> r == Value(None)
    ensures k !in StoreOf(stores, master) && (exists i :: 0 <= i < |fallback| && k in StoreOf(stores, fallback[i])) ==>
      exists i: nat :: StoresNewest(stores, fallback, k, i) && Reads(StoreOf(stores, fallback[i])[k], r)
  {
    var primary := Answered(Answer(StoreOf(stores, master), k));
    var responses := seq(|fallback|, i requires 0 <= i < |fallback| => Answered(Answer(StoreOf(stores, fallback[i]), k)));
    r := Get(primary, responses);
    if k in StoreOf(stores, master) {
      AnswersRead(StoreOf(stores, master), k);
    } else if fallback != [] {
      assert responses[0].Answered?;
      ghost var w :| IsNewest(responses, w) && r == Value(if w.Some? then Shown(w.value) else None);
      NewestIsStored(stores, fallback, k, responses, w);
    }
  }

  /** Whom a write goes to: every owner, and nobody else. */
  lemma WritesReachEveryOwner(stores: Stores, t: Partitions, k: Key, m: Mutation, arrivals: seq<Arrival>, o: NodeId)
    requires WriteTargets(t, PartitionOf(k)).Some?
    requires forall n :: n in WriteTargets(t, PartitionOf(k)).value ==> Arrival(n, k, m) in arrivals
    ensures WriteTargets(t, PartitionOf(k)).value == OwnersOf(t.mapping, PartitionOf(k))
    ensures o in OwnersOf(t.mapping, PartitionOf(k)) ==>
      k in StoreOf(Arrived(stores, arrivals), o) && m.Version() <= StoreOf(Arrived(stores, arrivals), o)[k].Version()
  {
    if o in OwnersOf(t.mapping, PartitionOf(k)) {
      var i :| 0 <= i < |arrivals| && arrivals[i] == Arrival(o, k, m);
      ArrivalsLast(stores, arrivals, i);
    }
  }
}
