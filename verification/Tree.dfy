/**
 The folder forest: what it means to lie below a folder and to reach the root,
 the recursive ancestor query, and the downward delete cascade.
 */
module Tree {
  import opened Common
  import opened Tables

  /** `above` is reached from `f` by following parent_id exactly n times, over live rows. */
  ghost predicate Climbs(t: Table, f: Id, above: Id, n: nat)
    decreases n
  {
    f in t &&
    if n == 0 then f == above
    else t[f].parent.Some? && Climbs(t, t[f].parent.value, above, n - 1)
  }

  /** `f` lies in the subtree of `root`, counting `root` itself. */
  ghost predicate Descends(t: Table, f: Id, root: Id) {
    exists n: nat :: Climbs(t, f, root, n)
  }

  /** Following parent_id from `f` reaches the project root in fewer than n steps. */
  ghost predicate Rooted(t: Table, f: Id, n: nat)
    decreases n
  {
    f in t && n > 0 && (t[f].parent.Some? ==> Rooted(t, t[f].parent.value, n - 1))
  }

  ghost predicate ReachesRoot(t: Table, f: Id) {
    exists n: nat :: Rooted(t, f, n)
  }

  ghost predicate Acyclic(t: Table) {
    forall f :: f in t ==> ReachesRoot(t, f)
  }

  // --------------------------------------------------------- facts on paths

  /** One parent step further up stays in the relation. */
  lemma {:induction false} ClimbOneMore(t: Table, f: Id, a: Id, n: nat)
    requires Climbs(t, f, a, n)
    requires a in t && t[a].parent.Some? && t[a].parent.value in t
    ensures Climbs(t, f, t[a].parent.value, n + 1)
    decreases n
  {
    if n > 0 {
      ClimbOneMore(t, t[f].parent.value, a, n - 1);
    }
  }

  lemma {:induction false} ClimbEndsLive(t: Table, f: Id, a: Id, n: nat)
    requires Climbs(t, f, a, n)
    ensures a in t
    decreases n
  {
    if n > 0 {
      ClimbEndsLive(t, t[f].parent.value, a, n - 1);
    }
  }

  lemma {:induction false} ClimbRooted(t: Table, f: Id, a: Id, k: nat, n: nat)
    requires Climbs(t, f, a, k) && Rooted(t, f, n)
    ensures k < n && Rooted(t, a, n - k)
    decreases k
  {
    if k > 0 {
      ClimbRooted(t, t[f].parent.value, a, k - 1, n - 1);
    }
  }

  lemma {:induction false} RootedNotOnLoop(t: Table, f: Id, n: nat, k: nat)
    requires Rooted(t, f, n) && k > 0
    ensures !Climbs(t, f, f, k)
    decreases n
  {
    if Climbs(t, f, f, k) {
      ClimbRooted(t, f, f, k, n);
      RootedNotOnLoop(t, f, n - k, k);
    }
  }

  /** In an acyclic table no folder is a proper ancestor of itself. */
  lemma AcyclicHasNoLoop(t: Table, f: Id, k: nat)
    requires Acyclic(t) && k > 0
    ensures !Climbs(t, f, f, k)
  {
    if f in t {
      assert ReachesRoot(t, f);
      var n: nat :| Rooted(t, f, n);
      RootedNotOnLoop(t, f, n, k);
    }
  }

  // ------------------------------------------------------- the ancestor walk

  /** The rows the recursive term of the query joins to: the live parents of `working`. */
  function LiveParents(t: Table, working: set<Id>): set<Id> {
    set a | a in working && a in t && t[a].parent.Some? && t[a].parent.value in t :: t[a].parent.value
  }

  /** Everything above a member of a parent-closed set is in the set. */
  lemma {:induction false} ClosedUpwards(t: Table, s: set<Id>, f: Id, a: Id, n: nat)
    requires LiveParents(t, s) <= s && f in s && Climbs(t, f, a, n)
    ensures a in s
    decreases n
  {
    if n > 0 {
      var p := t[f].parent.value;
      assert p in t;
      assert p in LiveParents(t, s);
      ClosedUpwards(t, s, p, a, n - 1);
    }
  }

  lemma ParentsDescend(t: Table, f: Id, working: set<Id>)
    requires forall a :: a in working ==> Descends(t, f, a)
    ensures forall p :: p in LiveParents(t, working) ==> Descends(t, f, p)
  {
    forall p | p in LiveParents(t, working) ensures Descends(t, f, p) {
      var a :| a in working && a in t && t[a].parent == Some(p) && p in t;
      var n: nat :| Climbs(t, f, a, n);
      ClimbOneMore(t, f, a, n);
    }
  }

  /**
   `IsDescendant`: WITH RECURSIVE ... UNION. The working table is replaced by
   the rows not met before, so the walk ends on every table, a cyclic or
   dangling one included: each round either visits a new row or is the last.
   */
  method IsDescendant(t: Table, folder: Id, root: Id) returns (inSubtree: bool)
    ensures inSubtree <==> Descends(t, folder, root)
  {
    var ancestors := if folder in t then {folder} else {};
    var working := ancestors;
    assert folder in t ==> Climbs(t, folder, folder, 0);
    while working != {}
      invariant ancestors <= t.Keys && working <= ancestors
      invariant folder in t ==> folder in ancestors
      invariant forall a :: a in ancestors ==> Descends(t, folder, a)
      invariant LiveParents(t, ancestors - working) <= ancestors
      decreases t.Keys - ancestors, working
    {
      ParentsDescend(t, folder, working);
      var next := LiveParents(t, working) - ancestors;
      working := next;
      ancestors := ancestors + next;
    }
    inSubtree := root in ancestors;
    if Descends(t, folder, root) {
      var n: nat :| Climbs(t, folder, root, n);
      assert ancestors - working == ancestors;
      ClosedUpwards(t, ancestors, folder, root, n);
    }
  }

  // ---------------------------------------------------- the delete cascade

  ghost function Subtree(t: Table, root: Id): set<Id> {
    set f | f in t && Descends(t, f, root)
  }

  function Children(t: Table, parents: set<Id>): set<Id> {
    set f | f in t && t[f].parent.Some? && t[f].parent.value in parents
  }

  /** Requests filed in one of the given folders. */
  function Filed(requests: Table, folders: set<Id>): set<Id> {
    Children(requests, folders)
  }

  lemma {:induction false} ClosedDownwards(t: Table, s: set<Id>, f: Id, root: Id, n: nat)
    requires Children(t, s) <= s && Climbs(t, f, root, n) && root in s
    ensures f in s
    decreases n
  {
    if n > 0 {
      ClosedDownwards(t, s, t[f].parent.value, root, n - 1);
      assert f in Children(t, s);
    }
  }

  /** What deleting a node does: a folder takes its subtree and the requests in it, a request only itself. */
  ghost function DeleteNode(db: Db, kind: Kind, id: Id): Db {
    if kind.RequestKind? then db.(requests := db.requests - {id})
    else
      var doomed := Subtree(db.folders, id);
      db.(folders := db.folders - doomed, requests := db.requests - Filed(db.requests, doomed))
  }

  /**
   `DeleteFolder` as the foreign keys run it: delete the row, then the rows
   whose parent went away, round by round, with the requests filed in them.
   Exactly the rows for which the upward walk answers true disappear.
   */
  method DeleteFolder(db: Db, root: Id) returns (r: Db)
    ensures r == DeleteNode(db, FolderKind, root)
    ensures forall f :: f in r.folders <==> f in db.folders && !Descends(db.folders, f, root)
    ensures forall q :: q in r.requests <==>
              q in db.requests &&
              (db.requests[q].parent.Some? ==> !Descends(db.folders, db.requests[q].parent.value, root))
    ensures forall f :: f in r.folders ==> r.folders[f] == db.folders[f]
    ensures forall q :: q in r.requests ==> r.requests[q] == db.requests[q]
  {
    var folders, requests := db.folders, db.requests;
    var gone: set<Id> := {};
    var batch := if root in folders then {root} else {};
    assert root in folders ==> Climbs(folders, root, root, 0);
    while batch != {}
      invariant batch <= folders.Keys
      invariant folders == db.folders - gone && gone <= db.folders.Keys
      invariant requests == db.requests - Filed(db.requests, gone)
      invariant forall f :: f in gone + batch ==> Descends(db.folders, f, root)
      invariant root in db.folders ==> root in gone + batch
      invariant Children(db.folders, gone) <= gone + batch
      decreases folders.Keys
    {
      var removed := batch;
      folders := folders - removed;
      requests := requests - Filed(requests, removed);
      gone := gone + removed;
      batch := Children(folders, removed);
      forall f | f in batch ensures Descends(db.folders, f, root) {
        var n: nat :| Climbs(db.folders, db.folders[f].parent.value, root, n);
        assert Climbs(db.folders, f, root, n + 1);
      }
    }
    forall f | f in db.folders && Descends(db.folders, f, root) ensures f in gone {
      var n: nat :| Climbs(db.folders, f, root, n);
      ClimbEndsLive(db.folders, f, root, n);
      ClosedDownwards(db.folders, gone, f, root, n);
    }
    assert gone == Subtree(db.folders, root);
    r := db.(folders := folders, requests := requests);
    forall q | q in db.requests && db.requests[q].parent.Some? &&
               Descends(db.folders, db.requests[q].parent.value, root)
      ensures q in Filed(db.requests, gone)
    {
      var p := db.requests[q].parent.value;
      var n: nat :| Climbs(db.folders, p, root, n);
      assert p in Subtree(db.folders, root);
    }
  }

  // ------------------------------------- what keeps the forest well founded

  /**
   Re-parenting `x` under a rooted `p` that does not lie below `x` keeps every
   chain finite: a chain either avoids `x` or continues from `p`.
   */
  lemma {:induction false} PathAvoids(t: Table, t': Table, x: Id, p: Id, n: nat)
    requires Rooted(t, p, n) && !Descends(t, p, x)
    requires t'.Keys == t.Keys && forall f :: f in t && f != x ==> t'[f].parent == t[f].parent
    ensures Rooted(t', p, n)
    decreases n
  {
    if p == x {
      assert Climbs(t, p, x, 0);
    }
    if t[p].parent.Some? {
      var q := t[p].parent.value;
      if Descends(t, q, x) {
        var k: nat :| Climbs(t, q, x, k);
        assert Climbs(t, p, x, k + 1);
      }
      PathAvoids(t, t', x, q, n - 1);
    }
  }

  lemma {:induction false} PathThrough(t: Table, t': Table, x: Id, f: Id, n: nat)
    requires Rooted(t, f, n)
    requires t'.Keys == t.Keys && forall g :: g in t && g != x ==> t'[g].parent == t[g].parent
    requires ReachesRoot(t', x)
    ensures ReachesRoot(t', f)
    decreases n
  {
    if f != x {
      if t[f].parent.None? {
        assert Rooted(t', f, 1);
      } else {
        PathThrough(t, t', x, t[f].parent.value, n - 1);
        var k: nat :| Rooted(t', t[f].parent.value, k);
        assert Rooted(t', f, k + 1);
      }
    }
  }

  /** The move `x` under `target` keeps the forest, provided the walk from `target` did not meet `x`. */
  lemma ReparentKeepsForest(t: Table, t': Table, x: Id)
    requires Acyclic(t) && x in t
    requires t'.Keys == t.Keys && forall g :: g in t && g != x ==> t'[g].parent == t[g].parent
    requires t'[x].parent.Some? ==> t'[x].parent.value in t && !Descends(t, t'[x].parent.value, x)
    ensures Acyclic(t')
  {
    if t'[x].parent.None? {
      assert Rooted(t', x, 1);
    } else {
      var p := t'[x].parent.value;
      assert ReachesRoot(t, p);
      var n: nat :| Rooted(t, p, n);
      PathAvoids(t, t', x, p, n);
      assert Rooted(t', x, n + 1);
    }
    forall f | f in t' ensures ReachesRoot(t', f) {
      assert ReachesRoot(t, f);
      var n: nat :| Rooted(t, f, n);
      PathThrough(t, t', x, f, n);
    }
  }

  /** Conversely, moving a folder under its own descendant does close a loop. */
  lemma ReparentBelowItselfLoops(t: Table, t': Table, x: Id, p: Id)
    requires x in t && p in t && Descends(t, p, x)
    requires t'.Keys == t.Keys && forall g :: g in t && g != x ==> t'[g].parent == t[g].parent
    requires t'[x].parent == Some(p)
    ensures !Acyclic(t')
  {
    var n: nat :| Climbs(t, p, x, n);
    var k := ShortestClimb(t, t', p, x, n);
    assert Climbs(t', x, x, k + 1);
    if Acyclic(t') {
      AcyclicHasNoLoop(t', x, k + 1);
    }
  }

  lemma {:induction false} ShortestClimb(t: Table, t': Table, p: Id, x: Id, n: nat) returns (k: nat)
    requires Climbs(t, p, x, n) && x in t
    requires t'.Keys == t.Keys && forall g :: g in t && g != x ==> t'[g].parent == t[g].parent
    ensures Climbs(t', p, x, k)
    decreases n
  {
    if p == x {
      k := 0;
    } else {
      k := ShortestClimb(t, t', t[p].parent.value, x, n - 1);
      k := k + 1;
    }
  }

  /** A smaller or grown table whose surviving rows keep their parents, and where surviving rows' parents survive. */
  lemma {:induction false} RootedTransfers(t: Table, t': Table, f: Id, n: nat)
    requires Rooted(t, f, n) && f in t'
    requires forall g :: g in t && g in t' ==> t'[g].parent == t[g].parent
    requires forall g :: g in t && g in t' && t[g].parent.Some? ==> t[g].parent.value in t'
    ensures Rooted(t', f, n)
    decreases n
  {
    if t[f].parent.Some? {
      RootedTransfers(t, t', t[f].parent.value, n - 1);
    }
  }
}
