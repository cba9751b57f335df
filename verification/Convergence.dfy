/** Last write wins: what a store ends up with depends on the mutations it was
    given and not on the order or the number of times they arrived. */
module Convergence {
  import opened Common
  import opened StoreModel

  type Write = (Key, Mutation)

  /** A sequence of writes applied one after the other, with no expiry in between. */
  function MergeAll(records: map<Key, Mutation>, writes: seq<Write>): map<Key, Mutation> {
    if writes == [] then records
    else
      var last := writes[|writes| - 1];
      Merge(MergeAll(records, writes[..|writes| - 1]), last.0, last.1)
  }

  ghost predicate Touches(writes: seq<Write>, k: Key) {
    exists i :: 0 <= i < |writes| && writes[i].0 == k
  }

  /** Position `i` holds the last of the newest writes to its key. */
  ghost predicate LastNewest(writes: seq<Write>, i: nat) {
    && i < |writes|
    && (forall j :: 0 <= j < |writes| && writes[j].0 == writes[i].0 ==> writes[j].1.Version() <= writes[i].1.Version())
    && (forall j :: i < j < |writes| && writes[j].0 == writes[i].0 ==> writes[j].1.Version() < writes[i].1.Version())
  }

  lemma {:induction false} LastNewestExists(writes: seq<Write>, k: Key) returns (i: nat)
    requires Touches(writes, k)
    ensures LastNewest(writes, i) && writes[i].0 == k
  {
    var n := |writes| - 1;
    var front := writes[..n];
    if writes[n].0 == k && !Touches(front, k) {
      forall j | 0 <= j < n ensures writes[j].0 != k {
        assert front[j] == writes[j];
      }
      i := n;
    } else {
      assert Touches(front, k) by {
        var j :| 0 <= j < |writes| && writes[j].0 == k;
        if j < n { assert front[j].0 == k; }
      }
      i := LastNewestExists(front, k);
      if writes[n].0 == k && front[i].1.Version() <= writes[n].1.Version() {
        i := n;
      }
      assert forall j :: 0 <= j < n ==> front[j] == writes[j];
    }
  }

  /** A stored version is never replaced by an older one, tombstones included. */
  lemma {:induction false} NeverOlder(records: map<Key, Mutation>, writes: seq<Write>, k: Key)
    requires k in records
    ensures k in MergeAll(records, writes)
    ensures records[k].Version() <= MergeAll(records, writes)[k].Version()
    ensures records[k].Delete? && MergeAll(records, writes)[k].Put? ==>
      records[k].deletionTimeMs <= MergeAll(records, writes)[k].record.creationTimeMs
  {
    if writes != [] {
      NeverOlder(records, writes[..|writes| - 1], k);
    }
  }

  lemma {:induction false} BoundedBy(records: map<Key, Mutation>, writes: seq<Write>, k: Key, v: nat)
    requires k in records ==> records[k].Version() <= v
    requires forall j :: 0 <= j < |writes| && writes[j].0 == k ==> writes[j].1.Version() <= v
    ensures k in MergeAll(records, writes) ==> MergeAll(records, writes)[k].Version() <= v
  {
    if writes != [] {
      BoundedBy(records, writes[..|writes| - 1], k, v);
    }
  }

  /** What wins at a key: the last of the newest writes, unless something strictly
      newer was stored before. */
  lemma {:induction false} NewestWins(records: map<Key, Mutation>, writes: seq<Write>, i: nat)
    requires LastNewest(writes, i)
    ensures var k, m := writes[i].0, writes[i].1;
      && k in MergeAll(records, writes)
      && MergeAll(records, writes)[k] ==
           if k in records && m.Version() < records[k].Version() then records[k] else m
  {
    var k, m := writes[i].0, writes[i].1;
    var n := |writes| - 1;
    var front := writes[..n];
    assert forall j :: 0 <= j < n ==> front[j] == writes[j];
    if k in records && m.Version() < records[k].Version() {
      BaseWins(records, writes, k);
    } else if i == n {
      BoundedBy(records, front, k, m.Version());
    } else {
      NewestWins(records, front, i);
    }
  }

  lemma {:induction false} BaseWins(records: map<Key, Mutation>, writes: seq<Write>, k: Key)
    requires k in records
    requires forall j :: 0 <= j < |writes| && writes[j].0 == k ==> writes[j].1.Version() < records[k].Version()
    ensures k in MergeAll(records, writes) && MergeAll(records, writes)[k] == records[k]
  {
    if writes != [] {
      BaseWins(records, writes[..|writes| - 1], k);
    }
  }

  lemma {:induction false} Untouched(records: map<Key, Mutation>, writes: seq<Write>, k: Key)
    requires !Touches(writes, k)
    ensures k in MergeAll(records, writes) <==> k in records
    ensures k in records ==> MergeAll(records, writes)[k] == records[k]
  {
    if writes != [] {
      var front := writes[..|writes| - 1];
      assert forall j :: 0 <= j < |front| ==> front[j] == writes[j];
      Untouched(records, front, k);
    }
  }

  predicate SameVersion(a: Write, b: Write) {
    a.0 == b.0 && a.1.Version() == b.1.Version()
  }

  /** No two different writes to one key carry the same version. */
  ghost predicate DistinctVersions(writes: seq<Write>) {
    forall i, j :: 0 <= i < |writes| && 0 <= j < |writes| && SameVersion(writes[i], writes[j]) ==> writes[i] == writes[j]
  }

  ghost predicate SameWrites(a: seq<Write>, b: seq<Write>) {
    && (forall i :: 0 <= i < |a| ==> a[i] in b)
    && (forall i :: 0 <= i < |b| ==> b[i] in a)
  }

  lemma SameAt(records: map<Key, Mutation>, a: seq<Write>, b: seq<Write>, k: Key)
    requires SameWrites(a, b) && DistinctVersions(a) && Touches(a, k)
    ensures k in MergeAll(records, a) && k in MergeAll(records, b)
    ensures MergeAll(records, a)[k] == MergeAll(records, b)[k]
  {
    var i := LastNewestExists(a, k);
    var ib :| 0 <= ib < |b| && b[ib] == a[i];
    assert b[ib].0 == k;
    var j := LastNewestExists(b, k);
    assert b[ib].1.Version() <= b[j].1.Version();
    var ja :| 0 <= ja < |a| && a[ja] == b[j];
    assert a[ja].1.Version() <= a[i].1.Version();
    assert SameVersion(a[i], a[ja]);
    NewestWins(records, a, i);
    NewestWins(records, b, j);
  }

  /** Convergence: the same writes, in any two orders and with any repetitions, give
      the same store when no two of them tie. */
  lemma Convergent(records: map<Key, Mutation>, a: seq<Write>, b: seq<Write>)
    requires SameWrites(a, b) && DistinctVersions(a)
    ensures MergeAll(records, a) == MergeAll(records, b)
  {
    forall k
      ensures k in MergeAll(records, a) <==> k in MergeAll(records, b)
      ensures k in MergeAll(records, a) ==> MergeAll(records, a)[k] == MergeAll(records, b)[k]
    {
      if Touches(a, k) {
        SameAt(records, a, b, k);
      } else {
        forall j | 0 <= j < |b| ensures b[j].0 != k {
          assert b[j] in a;
        }
        Untouched(records, a, k);
        Untouched(records, b, k);
      }
    }
  }

  /** Permutations in particular. */
  lemma ReorderingConverges(records: map<Key, Mutation>, a: seq<Write>, b: seq<Write>)
    requires multiset(a) == multiset(b) && DistinctVersions(a)
    ensures MergeAll(records, a) == MergeAll(records, b)
  {
    forall i | 0 <= i < |a| ensures a[i] in b {
      assert a[i] in multiset(a);
    }
    forall i | 0 <= i < |b| ensures b[i] in a {
      assert b[i] in multiset(b);
    }
    Convergent(records, a, b);
  }

  /** Re-applying a whole sequence of writes changes nothing, ties or not. */
  lemma ReapplyingChangesNothing(records: map<Key, Mutation>, writes: seq<Write>)
    ensures MergeAll(MergeAll(records, writes), writes) == MergeAll(records, writes)
  {
    var once := MergeAll(records, writes);
    forall k
      ensures k in MergeAll(once, writes) <==> k in once
      ensures k in once ==> MergeAll(once, writes)[k] == once[k]
    {
      if Touches(writes, k) {
        var i := LastNewestExists(writes, k);
        NewestWins(records, writes, i);
        NewestWins(once, writes, i);
      } else {
        Untouched(once, writes, k);
      }
    }
  }

  /** Two writes to one key commute exactly when they are the same, differ in
      version, or both lose to what is stored; otherwise the later arrival stays. */
  lemma TwoOrdersAgree(records: map<Key, Mutation>, k: Key, a: Mutation, b: Mutation)
    ensures Merge(Merge(records, k, a), k, b) == Merge(Merge(records, k, b), k, a)
      <==> a == b || a.Version() != b.Version() || (k in records && a.Version() < records[k].Version())
  {
    var ab := Merge(Merge(records, k, a), k, b);
    var ba := Merge(Merge(records, k, b), k, a);
    if a.Version() == b.Version() && a != b && !(k in records && a.Version() < records[k].Version()) {
      assert ab[k] == b && ba[k] == a;
    } else {
      assert ab[k] == ba[k];
    }
  }
}
