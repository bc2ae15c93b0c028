/**
 Sibling order: the check on a submitted order, the list `ORDER BY sort_order,
 created_at` yields after a reorder, and where appended rows land.
 */
module Ordering {
  import opened Common
  import opened Tables

  // ------------------------------------------------------ checkSameIDSet

  datatype Verdict =
    | SameSet
    | Repeated(id: Id)
    | Foreign(id: Id)
    | Incomplete

  /** Before position j nothing is repeated or unwanted. */
  ghost predicate SoundUpTo(got: seq<Id>, want: seq<Id>, j: int) {
    0 <= j < |got| && NoDuplicates(got[..j]) && Elements(got[..j]) <= Elements(want)
  }

  /**
   Accepts exactly the lists that name every wanted id once and nothing else; a
   refusal names the first id at fault.
   */
  method CheckSameIdSet(got: seq<Id>, want: seq<Id>) returns (v: Verdict)
    ensures v.SameSet? <==> NoDuplicates(got) && Elements(got) == Elements(want)
    ensures v.Repeated? ==> exists j :: SoundUpTo(got, want, j) && got[j] == v.id && v.id in got[..j]
    ensures v.Foreign? ==> exists j :: SoundUpTo(got, want, j) && got[j] == v.id && v.id !in want
    ensures v.Incomplete? ==> NoDuplicates(got) && Elements(got) < Elements(want)
  {
    var expected: set<Id> := {};
    for i := 0 to |want|
      invariant expected == Elements(want[..i])
    {
      expected := expected + {want[i]};
      assert want[..i + 1] == want[..i] + [want[i]];
    }
    assert want[..|want|] == want;

    var seen: set<Id> := {};
    for i := 0 to |got|
      invariant seen == Elements(got[..i]) && seen <= expected
      invariant NoDuplicates(got[..i])
    {
      var id := got[i];
      if id in seen {
        var k :| 0 <= k < i && got[..i][k] == id;
        assert id in got[..i] && SoundUpTo(got, want, i);
        return Repeated(id);
      }
      seen := seen + {id};
      assert got[..i + 1] == got[..i] + [id];
      if id !in expected {
        assert id !in got[..i] && SoundUpTo(got, want, i);
        return Foreign(id);
      }
    }
    assert got[..|got|] == got;

    if |seen| != |expected| {
      return Incomplete;
    }
    SubsetOfSameSize(seen, expected);
    return SameSet;
  }

  lemma {:induction false} DistinctCount<T>(s: seq<T>, x: T)
    requires NoDuplicates(s)
    ensures multiset(s)[x] == if x in s then 1 else 0
  {
    if s != [] {
      var rest := s[..|s| - 1];
      DistinctCount(rest, x);
      assert s == rest + [s[|s| - 1]];
    }
  }

  lemma {:induction false} SameCountsDistinct<T>(s: seq<T>, i: nat, j: nat)
    requires i < j < |s| && s[i] == s[j]
    ensures multiset(s)[s[i]] >= 2
  {
    assert s == s[..j] + [s[j]] + s[j + 1..];
    assert s[i] in s[..j];
    assert multiset(s) == multiset(s[..j]) + multiset{s[j]} + multiset(s[j + 1..]);
  }

  /** Against a list of primary keys, acceptance means being a permutation of it. */
  lemma AcceptedIffPermutation(got: seq<Id>, want: seq<Id>)
    requires NoDuplicates(want)
    ensures NoDuplicates(got) && Elements(got) == Elements(want) <==> multiset(got) == multiset(want)
  {
    if NoDuplicates(got) && Elements(got) == Elements(want) {
      forall x ensures multiset(got)[x] == multiset(want)[x] {
        DistinctCount(got, x);
        DistinctCount(want, x);
        assert x in got <==> x in Elements(got);
        assert x in want <==> x in Elements(want);
      }
    }
    if multiset(got) == multiset(want) {
      forall i, j | 0 <= i < j < |got| ensures got[i] != got[j] {
        if got[i] == got[j] {
          SameCountsDistinct(got, i, j);
          DistinctCount(want, got[i]);
        }
      }
      forall x ensures x in Elements(got) <==> x in Elements(want) {
        assert x in got <==> x in multiset(got);
        assert x in want <==> x in multiset(want);
      }
    }
  }

  // ------------------------------------------------------------- ORDER BY

  predicate Before(a: Node, b: Node) {
    a.sortOrder < b.sortOrder || (a.sortOrder == b.sortOrder && a.createdAt <= b.createdAt)
  }

  /** `list` is a possible result of selecting `group` ORDER BY sort_order, created_at. */
  ghost predicate OrderBy(t: Table, group: set<Id>, list: seq<Id>) {
    && group <= t.Keys
    && NoDuplicates(list) && Elements(list) == group
    && forall i, j :: 0 <= i < j < |list| ==> list[i] in t && list[j] in t && Before(t[list[i]], t[list[j]])
  }

  /** The entries of `list` that are in `ids`, in order. */
  function Restrict(list: seq<Id>, ids: seq<Id>): seq<Id> {
    if list == [] then []
    else (if list[0] in ids then [list[0]] else []) + Restrict(list[1..], ids)
  }

  ghost predicate Ascending(list: seq<Id>, ids: seq<Id>) {
    forall i, j :: 0 <= i < j < |list| && list[i] in ids && list[j] in ids
      ==> IndexOf(ids, list[i]) < IndexOf(ids, list[j])
  }

  lemma {:induction false} RestrictFacts(list: seq<Id>, mask: seq<Id>, ids: seq<Id>)
    requires Ascending(list, ids)
    ensures Ascending(Restrict(list, mask), ids)
    ensures forall x :: x in Restrict(list, mask) <==> x in list && x in mask
  {
    if list != [] {
      var tail := list[1..];
      assert forall i, j :: 0 <= i < j < |tail| ==> tail[i] == list[i + 1] && tail[j] == list[j + 1];
      RestrictFacts(tail, mask, ids);
      var r := Restrict(tail, mask);
      forall x ensures x in Restrict(list, mask) <==> x in list && x in mask {
        assert x in list <==> x == list[0] || x in tail;
      }
      forall j | 0 <= j < |r| && list[0] in ids && r[j] in ids ensures IndexOf(ids, list[0]) < IndexOf(ids, r[j]) {
        assert r[j] in tail;
        var k :| 0 <= k < |tail| && tail[k] == r[j];
        assert list[k + 1] == r[j];
      }
    }
  }

  lemma AscendingTail(a: seq<Id>, ids: seq<Id>)
    requires a != [] && Ascending(a, ids) && forall x :: x in a ==> x in ids
    ensures Ascending(a[1..], ids)
    ensures forall x :: x in a[1..] <==> x in a && x != a[0]
    ensures forall x :: x in a ==> IndexOf(ids, a[0]) <= IndexOf(ids, x)
  {
    var tail := a[1..];
    assert a == [a[0]] + tail;
    assert forall i :: 0 <= i < |tail| ==> tail[i] == a[i + 1] && a[i + 1] in a;
  }

  /** Two ascending lists with the same members are the same list. */
  lemma {:induction false} AscendingUnique(a: seq<Id>, b: seq<Id>, ids: seq<Id>)
    requires Ascending(a, ids) && Ascending(b, ids)
    requires (forall x :: x in a ==> x in ids) && (forall x :: x in a <==> x in b)
    ensures a == b
    decreases |a|
  {
    assert a != [] ==> a[0] in b;
    assert b != [] ==> b[0] in b;
    if a != [] {
      AscendingTail(a, ids);
      AscendingTail(b, ids);
      assert a[0] == b[0];
      AscendingUnique(a[1..], b[1..], ids);
    }
  }

  lemma {:induction false} IndexOfDistinct(ids: seq<Id>, i: nat)
    requires NoDuplicates(ids) && i < |ids|
    ensures IndexOf(ids, ids[i]) == i
  {
  }

  /** In a list that follows the order of `ids`, the members of `ids` that are left stand as they do in `ids`. */
  lemma SurvivorsInOrder(list: seq<Id>, ids: seq<Id>)
    requires NoDuplicates(ids) && Ascending(list, ids)
    ensures Restrict(list, ids) == Restrict(ids, list)
  {
    forall i, j | 0 <= i < j < |ids| ensures IndexOf(ids, ids[i]) < IndexOf(ids, ids[j]) {
      IndexOfDistinct(ids, i);
      IndexOfDistinct(ids, j);
    }
    RestrictFacts(list, ids, ids);
    RestrictFacts(ids, list, ids);
    AscendingUnique(Restrict(list, ids), Restrict(ids, list), ids);
  }

  /** Rows that hold the positions of a reorder list in the order of the reorder. */
  lemma PositionsAscend(t: Table, group: set<Id>, ids: seq<Id>, base: int, list: seq<Id>)
    requires OrderBy(t, group, list)
    requires forall x :: x in ids && x in group ==> t[x].sortOrder == base + IndexOf(ids, x)
    ensures Ascending(list, ids)
  {
    forall i, j | 0 <= i < j < |list| && list[i] in ids && list[j] in ids
      ensures IndexOf(ids, list[i]) < IndexOf(ids, list[j])
    {
      assert list[i] in Elements(list) && list[j] in Elements(list);
      assert Before(t[list[i]], t[list[j]]);
      assert list[i] != list[j];
    }
  }

  /**
   A reorder of rows that all belong to the group fixes their order: whatever
   else is in the group, every listing shows the named rows in the given order.
   */
  lemma ReorderFixesOrder(t: Table, kind: Kind, project: Id, parent: Option<Id>, ids: seq<Id>, list: seq<Id>)
    requires Base(kind) + |ids| <= MAX_INT32 + 1
    requires NoDuplicates(ids) && Elements(ids) <= Siblings(t, project, parent)
    requires OrderBy(BulkOrder(t, kind, project, parent, ids), Siblings(t, project, parent), list)
    ensures Restrict(list, ids) == ids
  {
    var t', group := BulkOrder(t, kind, project, parent, ids), Siblings(t, project, parent);
    PositionsAscend(t', group, ids, Base(kind), list);
    SurvivorsInOrder(list, ids);
    forall x | x in ids ensures x in list {
      assert x in Elements(ids) && x in Elements(list);
    }
    RestrictAll(ids, list);
  }

  lemma {:induction false} RestrictAll(list: seq<Id>, ids: seq<Id>)
    requires forall x :: x in list ==> x in ids
    ensures Restrict(list, ids) == list
  {
    if list != [] {
      assert list[0] in list;
      assert forall x :: x in list[1..] ==> x in list;
      RestrictAll(list[1..], ids);
    }
  }

  /**
   An accepted reorder, 1-based for folders and 0-based for requests: listing
   the group gives exactly the submitted list, the group is the same set, and
   nothing but those positions changed.
   */
  lemma ReorderYieldsList(t: Table, kind: Kind, project: Id, parent: Option<Id>, ids: seq<Id>, list: seq<Id>)
    requires Base(kind) + |ids| <= MAX_INT32 + 1
    requires NoDuplicates(ids) && Elements(ids) == Siblings(t, project, parent)
    ensures var t' := BulkOrder(t, kind, project, parent, ids);
            && Siblings(t', project, parent) == Siblings(t, project, parent)
            && (OrderBy(t', Siblings(t', project, parent), list) <==> list == ids)
            && (forall i :: i in t && i !in ids ==> t'[i] == t[i])
            && (forall i :: i in ids ==> i in t && t'[i] == t[i].(sortOrder := t'[i].sortOrder))
  {
    var t' := BulkOrder(t, kind, project, parent, ids);
    var group := Siblings(t, project, parent);
    forall x | x in ids ensures x in t && t'[x] == t[x].(sortOrder := Base(kind) + IndexOf(ids, x)) {
      assert x in Elements(ids);
    }
    assert Siblings(t', project, parent) == group;
    if OrderBy(t', group, list) {
      ReorderFixesOrder(t, kind, project, parent, ids, list);
      forall x | x in list ensures x in ids {
        assert x in Elements(list);
      }
      RestrictAll(list, ids);
    }
    forall i, j | 0 <= i < j < |ids| ensures Before(t'[ids[i]], t'[ids[j]]) {
      IndexOfDistinct(ids, i);
      IndexOfDistinct(ids, j);
    }
  }

  /** With a row in the group that the list does not name, and only then, the group does not list as submitted. */
  lemma ListsAsSubmittedIff(t: Table, kind: Kind, project: Id, parent: Option<Id>, ids: seq<Id>)
    requires Base(kind) + |ids| <= MAX_INT32 + 1
    requires NoDuplicates(ids) && Elements(ids) <= Siblings(t, project, parent)
    ensures var t' := BulkOrder(t, kind, project, parent, ids);
            OrderBy(t', Siblings(t', project, parent), ids) <==> Siblings(t, project, parent) == Elements(ids)
  {
    var t' := BulkOrder(t, kind, project, parent, ids);
    assert Siblings(t', project, parent) == Siblings(t, project, parent);
    if Siblings(t, project, parent) == Elements(ids) {
      ReorderYieldsList(t, kind, project, parent, ids, ids);
    }
  }

  // --------------------------------------------------------------- appending

  lemma AboveTheMaximum(t: Table, others: set<Id>, order: Int32)
    requires others <= t.Keys && NextOrder(t, others, Ok(order))
    ensures forall i :: i in others ==> t[i].sortOrder < order
  {
    forall i | i in others ensures t[i].sortOrder < order {
      assert others != {};
      var m :| IsMaxOrder(t, others, m) && Ok(order) == if m == MAX_INT32 then Err(OutOfRange) else Ok(m + 1);
    }
  }

  lemma {:induction false} LastIsMaximum(t: Table, group: set<Id>, list: seq<Id>, id: Id)
    requires OrderBy(t, group, list) && id in group
    requires forall i :: i in group && i != id ==> t[i].sortOrder < t[id].sortOrder
    ensures list != [] && list[|list| - 1] == id
  {
    assert id in Elements(list);
    var k :| 0 <= k < |list| && list[k] == id;
    assert forall i :: 0 <= i < |list| ==> list[i] in Elements(list);
  }

  lemma DropLast(t: Table, t': Table, others: set<Id>, id: Id, init: seq<Id>)
    requires id !in others && others <= t.Keys && t'.Keys == t.Keys + {id}
    requires forall i :: i in others ==> t'[i] == t[i]
    requires OrderBy(t', others + {id}, init + [id])
    ensures OrderBy(t, others, init)
  {
    var list := init + [id];
    forall i | 0 <= i < |init| ensures list[i] == init[i] && init[i] != id {
      assert list[i] != list[|init|];
    }
    forall x ensures x in Elements(init) <==> x in others {
      assert x in Elements(list) <==> x in init || x == id;
    }
    forall i, j | 0 <= i < j < |init|
      ensures init[i] in t && init[j] in t && Before(t[init[i]], t[init[j]])
    {
      assert init[i] in Elements(init) && init[j] in Elements(init);
      assert Before(t'[list[i]], t'[list[j]]);
    }
  }

  lemma AddLast(t: Table, t': Table, others: set<Id>, id: Id, init: seq<Id>)
    requires id !in others && others <= t.Keys && t'.Keys == t.Keys + {id}
    requires forall i :: i in others ==> t'[i] == t[i] && t[i].sortOrder < t'[id].sortOrder
    requires OrderBy(t, others, init)
    ensures OrderBy(t', others + {id}, init + [id])
  {
    var list := init + [id];
    assert forall i :: 0 <= i < |init| ==> init[i] in Elements(init);
    assert Elements(list) == Elements(init) + {id};
  }

  /**
   A row placed after the maximum of its new siblings is the last entry of
   every listing, and the others keep their order.
   */
  lemma AppendLandsLast(t: Table, id: Id, n: Node, others: set<Id>, list: seq<Id>)
    requires others <= t.Keys && id !in others
    requires NextOrder(t, others, Ok(n.sortOrder))
    ensures OrderBy(t[id := n], others + {id}, list) <==>
            list != [] && list[|list| - 1] == id && OrderBy(t, others, list[..|list| - 1])
  {
    var t' := t[id := n];
    AboveTheMaximum(t, others, n.sortOrder);
    if OrderBy(t', others + {id}, list) {
      LastIsMaximum(t', others + {id}, list, id);
      assert list == list[..|list| - 1] + [id];
      DropLast(t, t', others, id, list[..|list| - 1]);
    }
    if list != [] && list[|list| - 1] == id && OrderBy(t, others, list[..|list| - 1]) {
      AddLast(t, t', others, id, list[..|list| - 1]);
      assert list == list[..|list| - 1] + [id];
    }
  }

  /** The append position exists unless a sibling already holds the largest int32. */
  lemma AppendFailsOnlyAtMaximum(t: Table, ids: set<Id>)
    requires ids <= t.Keys
    ensures NextOrderOf(t, ids).Err? <==> exists i :: i in ids && t[i].sortOrder == MAX_INT32
  {
    var r := NextOrderOf(t, ids);
    if ids != {} {
      var m :| IsMaxOrder(t, ids, m) && r == if m == MAX_INT32 then Err(OutOfRange) else Ok(m + 1);
      if i :| i in ids && t[i].sortOrder == MAX_INT32 {
        assert t[i].sortOrder <= m;
      }
    }
  }
}
