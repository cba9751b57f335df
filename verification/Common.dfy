/** Identifiers shared by managers, workers and clients, and the ordered-map
    scans that both the record pages and the change journal are read with. */
module Common {

  datatype Option<+T> = None | Some(value: T)

  /** Node identifiers are UUID strings in the system; only equality and the
      total order on them matter, so they are numbers here. */
  type NodeId = nat

  const PARTITIONS_AMOUNT: nat := 4096

  type PartitionId = p: nat | p < PARTITIONS_AMOUNT

  /** Record keys, already reduced to the integer that workers store. */
  type Key = nat

  function Elements<T>(s: seq<T>): set<T> {
    set x | x in s
  }

  function PartitionOf(k: Key): PartitionId {
    k % PARTITIONS_AMOUNT
  }
}

/** Messages pushed to an output queue while a hash set or map is walked: each once,
    in whatever order the walk yields them. */
module Outbox {

  /** Exactly the messages in `sent` were appended, each once. */
  ghost predicate Extends<T(!new)>(before: seq<T>, after: seq<T>, sent: set<T>) {
    && before <= after
    && |after| == |before| + |sent|
    && sent == set o | o in after[|before|..]
  }

  lemma ExtendsMore<T(!new)>(before: seq<T>, after: seq<T>, sent: set<T>, o: T)
    requires Extends(before, after, sent) && o !in sent
    ensures Extends(before, after + [o], sent + {o})
  {
    assert (after + [o])[|before|..] == after[|before|..] + [o];
  }

  method PushAll<T(==, !new)>(output: seq<T>, sent: set<T>) returns (r: seq<T>)
    ensures Extends(output, r, sent)
  {
    r := output;
    var todo := sent;
    ghost var pushed: set<T> := {};
    while todo != {}
      invariant pushed !! todo && pushed + todo == sent
      invariant Extends(output, r, pushed)
      decreases |todo|
    {
      var o :| o in todo;
      ExtendsMore(output, r, pushed, o);
      r := r + [o];
      todo, pushed := todo - {o}, pushed + {o};
    }
    assert pushed == sent;
  }
}

/** Ascending iteration over a map with numeric keys, as a skip list offers it:
    everything strictly above a bound, in order, at most `amount` entries. */
module Ordered {
  import opened Common

  ghost predicate IsFirstAbove(keys: set<nat>, after: int, k: nat) {
    && k in keys
    && after < k
    && forall j :: j in keys && after < j ==> k <= j
  }

  lemma {:induction false} FirstAboveExists(keys: set<nat>, after: int, some: nat)
    requires some in keys && after < some
    ensures exists k :: IsFirstAbove(keys, after, k)
    decreases some
  {
    if j :| j in keys && after < j < some {
      FirstAboveExists(keys, after, j);
    } else {
      assert IsFirstAbove(keys, after, some);
    }
  }

  ghost function FirstAbove(keys: set<nat>, after: int): (r: Option<nat>)
    ensures r.None? ==> forall j :: j in keys ==> j <= after
    ensures r.Some? ==> IsFirstAbove(keys, after, r.value)
  {
    if exists j :: j in keys && after < j then
      var j :| j in keys && after < j;
      FirstAboveExists(keys, after, j);
      var k :| IsFirstAbove(keys, after, k);
      Some(k)
    else
      None
  }

  /** The first `amount` keys above `after`, ascending. */
  ghost function Page(keys: set<nat>, after: int, amount: nat): seq<nat>
    decreases amount
  {
    if amount == 0 then []
    else
      match FirstAbove(keys, after)
      case None => []
      case Some(k) => [k] + Page(keys, k, amount - 1)
  }

  /** `k` lies within the stretch a page accounts for: not beyond its last key,
      unless the page stopped short of `amount` because nothing was left. */
  ghost predicate Reaches(page: seq<nat>, amount: nat, k: nat) {
    |page| < amount || (page != [] && k <= page[|page| - 1])
  }

  /** What a page promises without saying how it is built: keys above the bound,
      strictly ascending, with nothing skipped in the stretch it reaches. */
  ghost predicate IsPage(keys: set<nat>, after: int, amount: nat, page: seq<nat>) {
    && |page| <= amount
    && (forall i :: 0 <= i < |page| ==> page[i] in keys && after < page[i])
    && (forall i, j :: 0 <= i < j < |page| ==> page[i] < page[j])
    && (forall k {:trigger Reaches(page, amount, k)} :: k in keys && after < k && Reaches(page, amount, k) ==> k in page)
  }

  lemma PagePrepend(keys: set<nat>, after: int, amount: nat, f: nat, rest: seq<nat>)
    requires 0 < amount && IsFirstAbove(keys, after, f) && IsPage(keys, f, amount - 1, rest)
    ensures IsPage(keys, after, amount, [f] + rest)
  {
    var page := [f] + rest;
    forall k | k in keys && after < k && Reaches(page, amount, k) ensures k in page {
      if k != f {
        assert Reaches(rest, amount - 1, k);
        assert k in rest;
      }
    }
  }

  lemma {:induction false} PageIsPage(keys: set<nat>, after: int, amount: nat)
    ensures IsPage(keys, after, amount, Page(keys, after, amount))
    decreases amount
  {
    if amount != 0 && FirstAbove(keys, after).Some? {
      var f := FirstAbove(keys, after).value;
      PageIsPage(keys, f, amount - 1);
      PagePrepend(keys, after, amount, f, Page(keys, f, amount - 1));
    }
  }

  lemma PageStartsFirst(keys: set<nat>, after: int, amount: nat, page: seq<nat>, f: nat)
    requires 0 < amount && IsPage(keys, after, amount, page) && IsFirstAbove(keys, after, f)
    ensures page != [] && page[0] == f
  {
    if page == [] {
      assert Reaches(page, amount, f);
    } else {
      assert page[0] in keys && page[0] <= page[|page| - 1];
      assert Reaches(page, amount, f);
    }
  }

  lemma PageTail(keys: set<nat>, after: int, amount: nat, page: seq<nat>)
    requires 0 < amount && page != [] && IsPage(keys, after, amount, page)
    ensures IsPage(keys, page[0], amount - 1, page[1..])
  {
    var rest := page[1..];
    forall k | k in keys && page[0] < k && Reaches(rest, amount - 1, k) ensures k in rest {
      assert Reaches(page, amount, k);
      assert k in page && page == [page[0]] + rest;
    }
  }

  lemma PageOfNothing(keys: set<nat>, after: int, amount: nat)
    requires IsPage(keys, after, amount, [])
    ensures Page(keys, after, amount) == []
  {
    if amount != 0 && FirstAbove(keys, after).Some? {
      PageStartsFirst(keys, after, amount, [], FirstAbove(keys, after).value);
    }
  }

  lemma PageHead(keys: set<nat>, after: int, amount: nat, page: seq<nat>)
    requires page != [] && IsPage(keys, after, amount, page)
    ensures 0 < amount && FirstAbove(keys, after) == Some(page[0])
  {
    assert page[0] in keys && after < page[0];
    PageStartsFirst(keys, after, amount, page, FirstAbove(keys, after).value);
  }

  /** A page is determined by what it promises. */
  lemma {:induction false} PageUnique(keys: set<nat>, after: int, amount: nat, page: seq<nat>)
    requires IsPage(keys, after, amount, page)
    ensures page == Page(keys, after, amount)
    decreases |page|
  {
    if page == [] {
      PageOfNothing(keys, after, amount);
    } else {
      PageHead(keys, after, amount, page);
      PageTail(keys, after, amount, page);
      PageUnique(keys, page[0], amount - 1, page[1..]);
      assert page == [page[0]] + page[1..];
    }
  }

  /** The next key above a cursor, as the ordered map yields it. */
  method NextAbove(keys: set<nat>, after: int) returns (r: Option<nat>)
    ensures r == FirstAbove(keys, after)
  {
    var above := set j | j in keys && after < j;
    assert forall j :: j in keys && after < j ==> j in above;
    if above == {} {
      return None;
    }
    ghost var some :| some in above;
    FirstAboveExists(keys, after, some);
    assert exists k :: k in above && forall j :: j in above ==> k <= j by {
      var k :| IsFirstAbove(keys, after, k);
      assert k in above;
    }
    var k :| k in above && forall j :: j in above ==> k <= j;
    assert IsFirstAbove(keys, after, k);
    r := Some(k);
  }

  /** At most `amount` keys above the cursor, ascending. */
  method TakeAbove(keys: set<nat>, after: int, amount: nat) returns (page: seq<nat>)
    ensures page == Page(keys, after, amount)
  {
    page := [];
    var cursor := after;
    var next := NextAbove(keys, cursor);
    while |page| < amount && next.Some?
      invariant |page| <= amount && next == FirstAbove(keys, cursor)
      invariant page + Page(keys, cursor, amount - |page|) == Page(keys, after, amount)
      decreases amount - |page|
    {
      cursor := next.value;
      page := page + [cursor];
      next := NextAbove(keys, cursor);
    }
  }
}
