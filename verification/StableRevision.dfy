/** Reading a partition's revision while writers come and go. Writers and the
    reader take one atomic step at a time, in any interleaving. */
module StableRevision {
  import opened Common

  type WriterId = nat

  /** How far a writer's guard has got: it has announced itself, taken a number,
      journaled its key, published its number. Leaving ends it. */
  datatype Stage = Entered | Numbered(number: nat) | Journaled(number: nat) | Published(number: nat)

  datatype Writer = Writer(key: Option<Key>, stage: Stage)

  /** The partition at one instant. `numbers` maps every number taken by a writer of
      this partition to the key it journals; `finished` holds those whose writer has
      left, `published` those that were stored as the partition's revision. */
  datatype Partition = Partition(
    active: nat, revision: nat, next: nat, changes: map<nat, Key>,
    inside: map<WriterId, Writer>, numbers: map<nat, Option<Key>>, finished: set<nat>, published: set<nat>)

  /** The reader's call: the revision it read first, the instant at which it found
      no active writer, the revision it read next, its answer. `busy` and `moved`
      record whether a writer was inside, or published, at any instant of the call. */
  datatype Reader =
    | Idle
    | Began(busy: bool)
    | ReadBefore(busy: bool, moved: bool, before: nat)
    | SawQuiet(busy: bool, moved: bool, before: nat, instant: Partition)
    | ReadAfter(busy: bool, before: nat, instant: Partition, after: nat)
    | Returned(busy: bool, result: Option<nat>, moment: Option<Partition>, end: Partition)

  datatype State = State(p: Partition, reader: Reader)

  datatype Event =
    | Enter(w: WriterId, key: Option<Key>)
    | Number(w: WriterId)
    | Journal(w: WriterId)
    | Publish(w: WriterId)
    | Leave(w: WriterId)
    | NumberElsewhere
    | Begin
    | LoadBefore
    | LoadActive
    | LoadAfter
    | LoadActiveAgain

  predicate AtStage(p: Partition, w: WriterId, stage: Stage) {
    w in p.inside && p.inside[w].stage == stage
  }

  predicate Enabled(s: State, e: Event) {
    match e
    case Enter(w, _) => w !in s.p.inside
    case Number(w) => AtStage(s.p, w, Entered)
    case Journal(w) => w in s.p.inside && s.p.inside[w].stage.Numbered?
    case Publish(w) => w in s.p.inside && s.p.inside[w].stage.Journaled?
    case Leave(w) => w in s.p.inside && s.p.inside[w].stage.Published? && s.p.active > 0
    case NumberElsewhere => true
    case Begin => s.reader.Idle? || s.reader.Returned?
    case LoadBefore => s.reader.Began?
    case LoadActive => s.reader.ReadBefore?
    case LoadAfter => s.reader.SawQuiet?
    case LoadActiveAgain => s.reader.ReadAfter?
  }

  function WriterStep(p: Partition, e: Event): Partition
    requires Enabled(State(p, Idle), e)
  {
    match e
    case Enter(w, key) => p.(active := p.active + 1, inside := p.inside[w := Writer(key, Entered)])
    case Number(w) =>
      var n := p.next + 1;
      p.(next := n, inside := p.inside[w := p.inside[w].(stage := Numbered(n))],
         numbers := p.numbers[n := p.inside[w].key])
    case Journal(w) =>
      var n, key := p.inside[w].stage.number, p.inside[w].key;
      p.(changes := if key.Some? then p.changes[n := key.value] else p.changes,
         inside := p.inside[w := p.inside[w].(stage := Journaled(n))])
    case Publish(w) =>
      var n := p.inside[w].stage.number;
      p.(revision := n, published := p.published + {n},
         inside := p.inside[w := p.inside[w].(stage := Published(n))])
    case Leave(w) =>
      p.(active := p.active - 1, inside := p.inside - {w}, finished := p.finished + {p.inside[w].stage.number})
    case NumberElsewhere => p.(next := p.next + 1)
    case _ => p
  }

  /** What an ongoing call notices, without knowing it, when a writer takes a step. */
  function Notice(r: Reader, p: Partition, e: Event): Reader {
    var busy := p.inside != map[];
    match r
    case Began(b) => Began(b || busy)
    case ReadBefore(b, m, before) => ReadBefore(b || busy, m || e.Publish?, before)
    case SawQuiet(b, m, before, instant) => SawQuiet(b || busy, m || e.Publish?, before, instant)
    case ReadAfter(b, before, instant, after) => ReadAfter(b || busy, before, instant, after)
    case _ => r
  }

  function ReaderStep(s: State, e: Event): Reader
    requires Enabled(s, e)
  {
    var p, busy := s.p, s.p.inside != map[];
    match e
    case Begin => Began(busy)
    case LoadBefore => ReadBefore(s.reader.busy || busy, false, p.revision)
    case LoadActive =>
      if p.active != 0 then Returned(s.reader.busy || busy, None, None, p)
      else SawQuiet(s.reader.busy || busy, s.reader.moved, s.reader.before, p)
    case LoadAfter => ReadAfter(s.reader.busy || busy, s.reader.before, s.reader.instant, p.revision)
    case LoadActiveAgain =>
      var ok := s.reader.before == s.reader.after && p.active == 0;
      Returned(s.reader.busy || busy, if ok then Some(s.reader.after) else None, Some(s.reader.instant), p)
    case _ => s.reader
  }

  predicate OfReader(e: Event) {
    e.Begin? || e.LoadBefore? || e.LoadActive? || e.LoadAfter? || e.LoadActiveAgain?
  }

  function Apply(s: State, e: Event): State
    requires Enabled(s, e)
  {
    if OfReader(e) then State(s.p, ReaderStep(s, e))
    else
      var p := WriterStep(s.p, e);
      State(p, Notice(Notice(s.reader, s.p, e), p, e))
  }

  ghost predicate Init(s: State) {
    s.p.active == 0 && s.p.revision == 0 && s.p.changes == map[] && s.p.inside == map[]
    && s.p.numbers == map[] && s.p.finished == {} && s.p.published == {} && s.reader == Idle
  }

  ghost predicate Legal(s: State, events: seq<Event>)
    decreases |events|
  {
    events == [] || (Enabled(s, events[0]) && Legal(Apply(s, events[0]), events[1..]))
  }

  ghost function After(s: State, events: seq<Event>): State
    requires Legal(s, events)
    decreases |events|
  {
    if events == [] then s else After(Apply(s, events[0]), events[1..])
  }

  // -------------------------------------------------------------------- invariants

  predicate HasNumber(stage: Stage) {
    !stage.Entered?
  }

  /** A writer inside owns its number alone, has not published it before its
      publishing step, and has journaled it from its journaling step on. */
  ghost predicate WriterInv(p: Partition, w: WriterId)
    requires w in p.inside
  {
    var writer := p.inside[w];
    HasNumber(writer.stage) ==>
      var n := writer.stage.number;
      && n in p.numbers && p.numbers[n] == writer.key && n !in p.finished
      && (!writer.stage.Published? ==> n !in p.published)
      && (!writer.stage.Numbered? && writer.key.Some? ==> n in p.changes && p.changes[n] == writer.key.value)
      && forall v :: v in p.inside && v != w && HasNumber(p.inside[v].stage) ==> p.inside[v].stage.number != n
  }

  ghost predicate Owned(p: Partition, n: nat) {
    exists w :: w in p.inside && HasNumber(p.inside[w].stage) && p.inside[w].stage.number == n
  }

  ghost predicate NumbersInv(p: Partition) {
    && (forall n :: n in p.numbers ==> 0 < n <= p.next)
    && (forall n :: n in p.numbers ==> n in p.finished || Owned(p, n))
    && (forall n :: n in p.finished ==> n in p.numbers && Written(p, n))
    && (forall n :: n in p.published ==> n in p.numbers)
    && (p.revision == 0 || p.revision in p.published)
  }

  /** The journal entry of number `n` is in place. */
  ghost predicate Written(p: Partition, n: nat)
    requires n in p.numbers
  {
    p.numbers[n].Some? ==> n in p.changes && p.changes[n] == p.numbers[n].value
  }

  ghost predicate PartitionInv(p: Partition) {
    && p.active == |p.inside|
    && NumbersInv(p)
    && forall w :: w in p.inside ==> WriterInv(p, w)
  }

  /** No writer is inside: every number taken so far is finished and journaled. */
  ghost predicate Quiet(q: Partition) {
    && q.inside == map[] && q.active == 0
    && q.revision <= q.next
    && forall n :: n in q.numbers ==> n <= q.next && n in q.finished && Written(q, n)
  }

  /** Whatever happens after `q` keeps its numbers, and numbers above its counter. */
  ghost predicate Later(q: Partition, p: Partition) {
    && q.next <= p.next
    && (forall n :: n in q.numbers ==> n in p.numbers)
    && (forall n :: n in p.numbers && n !in q.numbers ==> q.next < n)
  }

  ghost predicate ReaderInv(p: Partition, r: Reader) {
    match r
    case ReadBefore(busy, moved, before) =>
      && (before == 0 || before in p.published)
      && (moved ==> p.revision != before && busy)
      && (!moved ==> p.revision == before)
    case SawQuiet(busy, moved, before, q) =>
      && (before == 0 || before in p.published)
      && (moved ==> p.revision != before && busy)
      && (!moved ==> p.revision == before && q.revision == before)
      && Quiet(q) && Later(q, p)
    case ReadAfter(busy, before, q, after) =>
      && (before == after ==> q.revision == before)
      && (before != after ==> busy)
      && Quiet(q) && Later(q, p)
    case Returned(busy, result, instant, end) =>
      && (result.None? ==> busy)
      && (result.Some? ==>
            && instant.Some? && Quiet(instant.value) && Later(instant.value, p) && instant.value.revision == result.value
            && Quiet(end) && Later(instant.value, end))
    case _ => true
  }

  ghost predicate Inv(s: State) {
    PartitionInv(s.p) && ReaderInv(s.p, s.reader)
  }

  // ----------------------------------------------------------------- writers' steps

  lemma EnterInv(p: Partition, w: WriterId, key: Option<Key>)
    requires PartitionInv(p) && w !in p.inside
    ensures PartitionInv(WriterStep(p, Enter(w, key)))
  {
    var p' := WriterStep(p, Enter(w, key));
    forall v | v in p'.inside ensures WriterInv(p', v) {
      if v != w { assert WriterInv(p, v); }
    }
    forall n | n in p'.numbers && n !in p'.finished ensures Owned(p', n) {
      var v :| v in p.inside && HasNumber(p.inside[v].stage) && p.inside[v].stage.number == n;
      assert v in p'.inside && p'.inside[v] == p.inside[v];
    }
  }

  /** A step of writer `w` that keeps it inside leaves the other writers' claims. */
  lemma OthersKept(p: Partition, p': Partition, w: WriterId, writer: Writer)
    requires PartitionInv(p) && w in p.inside && p'.inside == p.inside[w := writer]
    requires HasNumber(writer.stage)
    requires HasNumber(p.inside[w].stage) ==> p.inside[w].stage.number == writer.stage.number
    requires !HasNumber(p.inside[w].stage) ==> writer.stage.number !in p.numbers
    requires p'.finished == p.finished
    requires forall n :: n in p.numbers ==> n in p'.numbers && p'.numbers[n] == p.numbers[n]
    requires forall n :: n in p'.published && n != writer.stage.number ==> n in p.published
    requires forall n :: n in p.changes && n != writer.stage.number ==> n in p'.changes && p'.changes[n] == p.changes[n]
    ensures forall v :: v in p'.inside && v != w ==> WriterInv(p', v)
    ensures forall n :: n in p.numbers && n !in p'.finished ==> Owned(p', n)
    ensures Owned(p', writer.stage.number)
  {
    forall v | v in p'.inside && v != w ensures WriterInv(p', v) {
      assert WriterInv(p, v) && WriterInv(p, w);
    }
    assert w in p'.inside && p'.inside[w] == writer;
    forall n | n in p.numbers && n !in p'.finished ensures Owned(p', n) {
      var v :| v in p.inside && HasNumber(p.inside[v].stage) && p.inside[v].stage.number == n;
      if v != w { assert p'.inside[v] == p.inside[v]; }
    }
  }

  lemma NumberInv(p: Partition, w: WriterId)
    requires PartitionInv(p) && AtStage(p, w, Entered)
    ensures PartitionInv(WriterStep(p, Number(w)))
  {
    var p' := WriterStep(p, Number(w));
    assert p.next + 1 !in p.numbers;
    OthersKept(p, p', w, p'.inside[w]);
    assert forall v :: v in p.inside && HasNumber(p.inside[v].stage) ==> WriterInv(p, v);
    assert |p'.inside| == |p.inside| by { assert p'.inside.Keys == p.inside.Keys; }
  }

  lemma JournalInv(p: Partition, w: WriterId)
    requires PartitionInv(p) && w in p.inside && p.inside[w].stage.Numbered?
    ensures PartitionInv(WriterStep(p, Journal(w)))
  {
    var p' := WriterStep(p, Journal(w));
    assert WriterInv(p, w);
    OthersKept(p, p', w, p'.inside[w]);
    assert WriterInv(p', w);
    assert |p'.inside| == |p.inside| by { assert p'.inside.Keys == p.inside.Keys; }
    forall n | n in p'.finished ensures n in p'.numbers && Written(p', n) {
      assert Written(p, n);
    }
  }

  lemma PublishInv(p: Partition, w: WriterId)
    requires PartitionInv(p) && w in p.inside && p.inside[w].stage.Journaled?
    ensures PartitionInv(WriterStep(p, Publish(w)))
  {
    var p' := WriterStep(p, Publish(w));
    assert WriterInv(p, w);
    OthersKept(p, p', w, p'.inside[w]);
    assert WriterInv(p', w);
    assert |p'.inside| == |p.inside| by { assert p'.inside.Keys == p.inside.Keys; }
    forall n | n in p'.finished ensures n in p'.numbers && Written(p', n) {
      assert Written(p, n);
    }
  }

  lemma LeaveInv(p: Partition, w: WriterId)
    requires PartitionInv(p) && w in p.inside && p.inside[w].stage.Published? && p.active > 0
    ensures PartitionInv(WriterStep(p, Leave(w)))
  {
    var p' := WriterStep(p, Leave(w));
    var n0 := p.inside[w].stage.number;
    assert WriterInv(p, w);
    assert p'.inside.Keys == p.inside.Keys - {w};
    assert |p'.inside| == |p'.inside.Keys| && |p.inside| == |p.inside.Keys|;
    forall v | v in p'.inside ensures WriterInv(p', v) {
      assert WriterInv(p, v);
    }
    forall n | n in p'.numbers && n !in p'.finished ensures Owned(p', n) {
      var v :| v in p.inside && HasNumber(p.inside[v].stage) && p.inside[v].stage.number == n;
      assert v in p'.inside && p'.inside[v] == p.inside[v];
    }
    forall n | n in p'.finished ensures n in p'.numbers && Written(p', n) {
      if n != n0 { assert Written(p, n); }
    }
  }

  lemma ElsewhereInv(p: Partition)
    requires PartitionInv(p)
    ensures PartitionInv(WriterStep(p, NumberElsewhere))
  {
    var p' := WriterStep(p, NumberElsewhere);
    forall v | v in p'.inside ensures WriterInv(p', v) {
      assert WriterInv(p, v);
    }
    forall n | n in p'.numbers && n !in p'.finished ensures Owned(p', n) {
      assert Owned(p, n);
    }
    forall n | n in p'.finished ensures n in p'.numbers && Written(p', n) {
      assert Written(p, n);
    }
  }

  lemma WriterStepInv(p: Partition, e: Event)
    requires PartitionInv(p) && Enabled(State(p, Idle), e)
    ensures PartitionInv(WriterStep(p, e))
  {
    match e
    case Enter(w, key) => EnterInv(p, w, key);
    case Number(w) => NumberInv(p, w);
    case Journal(w) => JournalInv(p, w);
    case Publish(w) => PublishInv(p, w);
    case Leave(w) => LeaveInv(p, w);
    case NumberElsewhere => ElsewhereInv(p);
    case _ =>
  }

  // ------------------------------------------------------------------- the call

  /** What a writer's step can do to the values a call has read. */
  lemma WriterStepEffect(p: Partition, e: Event)
    requires PartitionInv(p) && Enabled(State(p, Idle), e) && !OfReader(e)
    ensures var p' := WriterStep(p, e);
      && p.published <= p'.published
      && (!e.Publish? ==> p'.revision == p.revision)
      && (e.Publish? ==> p'.revision != 0 && p'.revision !in p.published && p.inside != map[])
      && Later(p, p')
  {
    if e.Publish? {
      assert WriterInv(p, e.w);
    }
  }

  lemma LaterTransitive(q: Partition, p: Partition, p': Partition)
    requires Later(q, p) && Later(p, p')
    ensures Later(q, p')
  {
  }

  lemma QuietInstant(p: Partition)
    requires PartitionInv(p) && p.active == 0
    ensures Quiet(p) && Later(p, p)
  {
    assert p.inside.Keys == {};
    forall n | n in p.numbers ensures n in p.finished && Written(p, n) {
      assert !Owned(p, n);
    }
  }

  lemma NoticeInv(s: State, e: Event)
    requires Inv(s) && Enabled(s, e) && !OfReader(e)
    ensures ReaderInv(Apply(s, e).p, Apply(s, e).reader)
  {
    var p' := WriterStep(s.p, e);
    WriterStepEffect(s.p, e);
    match s.reader
    case SawQuiet(_, _, _, q) => LaterTransitive(q, s.p, p');
    case ReadAfter(_, _, q, _) => LaterTransitive(q, s.p, p');
    case Returned(_, result, moment, _) =>
      if result.Some? { LaterTransitive(moment.value, s.p, p'); }
    case _ =>
  }

  lemma CallInv(s: State, e: Event)
    requires Inv(s) && Enabled(s, e) && OfReader(e)
    ensures ReaderInv(s.p, Apply(s, e).reader)
  {
    if s.p.active == 0 {
      QuietInstant(s.p);
    } else {
      assert s.p.inside != map[];
    }
  }

  lemma {:induction false} RunKeepsInv(s: State, events: seq<Event>)
    requires Inv(s) && Legal(s, events)
    ensures Inv(After(s, events))
    decreases |events|
  {
    if events != [] {
      var e := events[0];
      if OfReader(e) {
        CallInv(s, e);
      } else {
        WriterStepInv(s.p, e);
        NoticeInv(s, e);
      }
      RunKeepsInv(Apply(s, e), events[1..]);
    }
  }

  /** Soundness of a stable revision, over every interleaving. If the call returned
      `r`, then at that moment, inside the call, no writer was active, the
      revision was `r`, every number taken so far was finished with its journal entry
      in place, and every number taken after that instant is above `r`; and when the
      call ended no writer was active either, everything numbered by then finished and
      journaled. If it returned nothing, a writer was inside at some instant of the call. */
  lemma StableRevisionIsSound(s0: State, events: seq<Event>)
    requires Init(s0) && Legal(s0, events) && After(s0, events).reader.Returned?
    ensures var s := After(s0, events);
      match s.reader.result
      case None => s.reader.busy
      case Some(r) =>
        && s.reader.moment.Some?
        && var q := s.reader.moment.value;
           && q.inside == map[] && q.revision == r
           && (forall n :: n in q.numbers ==> n in q.finished && Written(q, n))
           && (forall n :: n in s.p.numbers && n !in q.numbers ==> r < n)
           && var end := s.reader.end;
              && end.inside == map[] && end.active == 0
              && (forall n :: n in q.numbers ==> n in end.numbers)
              && (forall n :: n in end.numbers ==> n in end.finished && Written(end, n))
  {
    RunKeepsInv(s0, events);
  }
}
