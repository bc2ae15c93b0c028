/**
 The store's tree transactions run on their own: each method executes the
 statements of one transaction against the tables in order and either installs
 the new tables or returns the fault with the tables as they were.
 */
module Store {
  import opened Common
  import opened Tables
  import opened Tree
  import opened Ordering
  import opened Outcomes
  import opened Interleaving

  /** Commit or roll back. */
  ghost predicate Settles(db: Db, r: Result<Db, Fault>, db': Db, fault: Option<Fault>) {
    match r
    case Ok(next) => fault == None && db' == next
    case Err(e) => fault == Some(e) && db' == db
  }

  function AsResult(db: Db, fault: Option<Fault>): Result<Db, Fault> {
    match fault
    case None => Ok(db)
    case Some(e) => Err(e)
  }

  /** The row that sorts first in a group. */
  method First(t: Table, group: set<Id>) returns (best: Id)
    requires group <= t.Keys && group != {}
    ensures best in group && forall i :: i in group ==> Before(t[best], t[i])
  {
    best :| best in group;
    var todo := group - {best};
    while todo != {}
      invariant best in group && todo <= group
      invariant forall i :: i in group - todo ==> Before(t[best], t[i])
      decreases todo
    {
      var i :| i in todo;
      if !Before(t[best], t[i]) {
        best := i;
      }
      todo := todo - {i};
    }
  }

  /** `ListSiblingFolderIDs` / `ListSiblingRequestIDs`: ORDER BY sort_order, created_at. */
  method ListSiblings(t: Table, project: Id, parent: Option<Id>) returns (list: seq<Id>)
    ensures OrderBy(t, Siblings(t, project, parent), list)
    ensures forall i :: i in list <==> i in t && t[i].project == project && t[i].parent == parent
  {
    list := [];
    var todo := Siblings(t, project, parent);
    while todo != {}
      invariant todo <= Siblings(t, project, parent)
      invariant OrderBy(t, Siblings(t, project, parent) - todo, list)
      invariant forall x, i :: x in list && i in todo ==> Before(t[x], t[i])
      decreases todo
    {
      var next := First(t, todo);
      ghost var before := list;
      Extend(t, Siblings(t, project, parent) - todo, before, next);
      list := list + [next];
      assert Siblings(t, project, parent) - (todo - {next}) == Siblings(t, project, parent) - todo + {next};
      todo := todo - {next};
    }
    assert Siblings(t, project, parent) - todo == Siblings(t, project, parent);
    assert forall i :: i in list <==> i in Elements(list);
  }

  lemma Extend(t: Table, group: set<Id>, list: seq<Id>, next: Id)
    requires OrderBy(t, group, list) && next in t && next !in group
    requires forall x :: x in list ==> Before(t[x], t[next])
    ensures OrderBy(t, group + {next}, list + [next])
  {
    var longer := list + [next];
    assert forall i :: 0 <= i < |list| ==> list[i] in Elements(list);
    assert Elements(longer) == Elements(list) + {next};
  }

  /** A new row at the next position ends every listing of its group; the rest of the listing is the old one. */
  lemma ListedLast(rows: Table, id: Id, n: Node)
    requires id !in rows && NextOrder(rows, Siblings(rows, n.project, n.parent), Ok(n.sortOrder))
    ensures var rows' := rows[id := n];
            forall list ::
              OrderBy(rows', Siblings(rows', n.project, n.parent), list) <==>
              list != [] && list[|list| - 1] == id &&
              OrderBy(rows, Siblings(rows, n.project, n.parent), list[..|list| - 1])
  {
    var group := Siblings(rows, n.project, n.parent);
    assert Siblings(rows[id := n], n.project, n.parent) == group + {id};
    forall list ensures OrderBy(rows[id := n], group + {id}, list) <==>
                        list != [] && list[|list| - 1] == id && OrderBy(rows, group, list[..|list| - 1]) {
      AppendLandsLast(rows, id, n, group, list);
    }
  }

  class TreeStore {
    var db: Db

    constructor ()
      ensures db == Db({}, map[], map[], map[])
    {
      db := Db({}, map[], map[], map[]);
    }

    /** `MoveFolder` and `MoveRequest`. A nil target is the project root; a nil order appends. */
    method Move(kind: Kind, id: Id, target: Option<Id>, order: Option<Int32>) returns (fault: Option<Fault>)
      modifies this
      ensures Settles(old(db), MoveResult(old(db), kind, id, target, order), db, fault)
      ensures MovePromise(old(db), kind, id, target, order, AsResult(db, fault))
      ensures old(DbOk(db) && Acyclic(db.folders)) ==> DbOk(db) && Acyclic(db.folders)
    {
      ghost var before := db;
      MoveKeepsPromise(db, kind, id, target, order);
      var rows := db.Rows(kind);
      if id !in rows {
        return Some(NotFound);
      }
      var project := rows[id].project;
      if !TargetInProject(db, target, project) {
        return Some(InvalidTarget);
      }
      if kind.FolderKind? && target.Some? {
        var inSubtree := IsDescendant(db.folders, target.value, id);
        if inSubtree {
          return Some(FolderCycle);
        }
      }
      var position: Int32;
      if order.Some? {
        position := order.value;
      } else {
        var others := Siblings(rows, project, target) - {id};
        var next := SelectNextOrder(rows, others);
        NextOrderUnique(rows, others, next, NextOrderOf(rows, others));
        if next.Err? {
          return Some(next.error);
        }
        position := next.value;
      }
      db := db.WithRows(kind, rows[id := rows[id].(parent := target, sortOrder := position)]);
      fault := None;
      if DbOk(before) && Acyclic(before.folders) {
        ReparentKeeps(before, kind, id, target, order, {});
      }
    }

    /** `ReorderFolders` and `ReorderRequests` with `checkSameIDSet` as the veto. */
    method Reorder(kind: Kind, project: Id, target: Option<Id>, ids: seq<Id>) returns (fault: Option<Fault>)
      modifies this
      ensures Settles(old(db), ReorderResult(old(db), kind, project, target, ids), db, fault)
      ensures ReorderPromise(old(db), kind, project, target, ids, AsResult(db, fault))
      ensures fault == None ==> forall list ::
                OrderBy(db.Rows(kind), Siblings(db.Rows(kind), project, target), list) <==> list == ids
    {
      ghost var before := db;
      ReorderKeepsPromise(db, kind, project, target, ids);
      if !TargetInProject(db, target, project) {
        return Some(InvalidTarget);
      }
      var siblings := ListSiblings(db.Rows(kind), project, target);
      var verdict := CheckSameIdSet(ids, siblings);
      if !verdict.SameSet? {
        return Some(BadList);
      }
      if Base(kind) + |ids| > MAX_INT32 + 1 {
        return Some(OutOfRange);
      }
      db := db.WithRows(kind, BulkOrder(db.Rows(kind), kind, project, target, ids));
      fault := None;
      forall list ensures OrderBy(db.Rows(kind), Siblings(db.Rows(kind), project, target), list) <==> list == ids {
        ReorderYieldsList(before.Rows(kind), kind, project, target, ids, list);
      }
    }

    /** `CreateFolderInProject` and `CreateRequestInProject`; the new id and the clock come from the database. */
    method Create(kind: Kind, id: Id, project: Id, target: Option<Id>, now: int, settings: string)
      returns (fault: Option<Fault>)
      requires id !in db.Rows(kind)
      modifies this
      ensures Settles(old(db), CreateResult(old(db), kind, id, project, target, now, settings), db, fault)
      ensures CreatePromise(old(db), kind, id, project, target, now, settings, AsResult(db, fault))
      ensures fault == None ==>
                var rows := old(db).Rows(kind);
                forall list ::
                  OrderBy(db.Rows(kind), Siblings(db.Rows(kind), project, target), list) <==>
                  list != [] && list[|list| - 1] == id &&
                  OrderBy(rows, Siblings(rows, project, target), list[..|list| - 1])
    {
      CreateKeepsPromise(db, kind, id, project, target, now, settings);
      var rows := db.Rows(kind);
      if !TargetInProject(db, target, project) {
        return Some(InvalidTarget);
      }
      var group := Siblings(rows, project, target);
      var next := SelectNextOrder(rows, group);
      NextOrderUnique(rows, group, next, NextOrderOf(rows, group));
      if next.Err? {
        return Some(next.error);
      }
      if project !in db.projects {
        return Some(ForeignKey(ToProject));
      }
      var node := Node(project, target, next.value, now, Inherit, None, settings);
      db := db.WithRows(kind, rows[id := node]);
      fault := None;
      ListedLast(rows, id, node);
    }

    /** `requireProxyInProject`, then the proxy columns of `UpdateFolder` and `UpdateRequest`. */
    method UpdateProxy(kind: Kind, id: Id, patch: ProxyPatch) returns (fault: Option<Fault>)
      modifies this
      ensures Settles(old(db), PatchResult(old(db), kind, id, patch), db, fault)
      ensures PatchPromise(old(db), kind, id, patch, AsResult(db, fault))
      ensures old(DbOk(db)) && patch.Valid() ==> DbOk(db)
    {
      ghost var before := db;
      PatchKeepsPromise(db, kind, id, patch);
      var rows := db.Rows(kind);
      if id !in rows {
        return Some(NotFound);
      }
      if patch.proxyId.Some? && !ProxyInProject(db, patch.proxyId.value, rows[id].project) {
        return Some(InvalidTarget);
      }
      db := db.WithRows(kind, rows[id := rows[id].(proxyMode := patch.mode, proxyId := patch.proxyId)]);
      fault := None;
      if DbOk(before) && patch.Valid() {
        SetProxyKeeps(before, kind, id, patch);
      }
    }

    /** `DeleteFolder` and `DeleteRequest`; neither minds a row that is gone. */
    method Delete(kind: Kind, id: Id)
      modifies this
      ensures db == DeleteNode(old(db), kind, id)
      ensures DeletePromise(old(db), kind, id, db)
    {
      DeleteKeepsPromise(db, kind, id);
      match kind
      case FolderKind => db := DeleteFolder(db, id);
      case RequestKind => db := db.(requests := db.requests - {id});
    }
  }

  /** A move that appends lands strictly last among its new siblings, and the others keep their order. */
  lemma MoveAppendsLast(db: Db, kind: Kind, id: Id, target: Option<Id>, list: seq<Id>)
    requires MoveResult(db, kind, id, target, None).Ok?
    ensures var rows, rows' := db.Rows(kind), MoveResult(db, kind, id, target, None).value.Rows(kind);
            var others := Siblings(rows, rows[id].project, target) - {id};
            && Siblings(rows', rows[id].project, target) == others + {id}
            && (OrderBy(rows', others + {id}, list) <==>
                  list != [] && list[|list| - 1] == id && OrderBy(rows, others, list[..|list| - 1]))
  {
    var rows := db.Rows(kind);
    var rows' := MoveResult(db, kind, id, target, None).value.Rows(kind);
    var others := Siblings(rows, rows[id].project, target) - {id};
    assert Siblings(rows', rows[id].project, target) == others + {id};
    AppendLandsLast(rows, id, rows'[id], others, list);
  }

  /** A folder move is refused as a cycle exactly when carrying it out would detach the folder from the root. */
  lemma CycleRefusedExactly(db: Db, id: Id, p: Id, order: Option<Int32>)
    requires DbOk(db) && Acyclic(db.folders)
    requires id in db.folders && p in db.folders && Reparent(db, FolderKind, id, Some(p), order).Ok?
    ensures Descends(db.folders, p, id) <==> !Acyclic(Reparent(db, FolderKind, id, Some(p), order).value.folders)
  {
    var t' := Reparent(db, FolderKind, id, Some(p), order).value.folders;
    if Descends(db.folders, p, id) {
      ReparentBelowItselfLoops(db.folders, t', id, p);
    } else {
      ReparentKeepsForest(db.folders, t', id);
    }
  }

  // -------------------- an interleaved transaction, run alone, does the same

  /** n steps of one transaction in a row. */
  function Turns(t: TxId, n: nat, newId: Id, now: int): seq<Action> {
    if n == 0 then [] else [Advance(t, newId, now)] + Turns(t, n - 1, newId, now)
  }

  lemma TakeTurn(s: State, t: TxId, n: nat, newId: Id, now: int)
    requires n > 0
    ensures Run(s, Turns(t, n, newId, now)) == Run(Step(s, Advance(t, newId, now)), Turns(t, n - 1, newId, now))
  {
    assert Turns(t, n, newId, now)[1..] == Turns(t, n - 1, newId, now);
  }

  lemma {:induction false} FinishedStays(s: State, t: TxId, n: nat, newId: Id, now: int)
    requires t in s.txns && s.txns[t].pc.Finished?
    ensures Run(s, Turns(t, n, newId, now)) == s
    decreases n
  {
    if n > 0 {
      TakeTurn(s, t, n, newId, now);
      FinishedStays(s, t, n - 1, newId, now);
    }
  }

  /** Where a transaction stood, and a lock it took on the way, leave no trace once it finished. */
  lemma FinishForgets(s: State, s': State, t: TxId, r: Result<Db, Fault>)
    requires t in s.txns && (exists pc :: s'.txns == s.txns[t := s.txns[t].(pc := pc)])
    requires s'.db == s.db && s'.issued == s.issued
    requires s'.locks == s.locks || exists p: Id :: p !in s.locks && s'.locks == s.locks[p := t]
    ensures Finish(s', t, r) == Finish(s, t, r)
  {
    assert Release(s'.locks, t) == Release(s.locks, t);
  }

  lemma MoveFromWalked(s: State, t: TxId, newId: Id, now: int)
    requires t in s.txns && s.txns[t].call.Move? && s.txns[t].pc.Walked?
    requires s.txns[t].call.target.Some? ==> s.txns[t].call.target.value in s.db.folders
    ensures var c := s.txns[t].call;
            Run(s, Turns(t, 2, newId, now)) == Finish(s, t, Reparent(s.db, c.kind, c.id, c.target, c.order))
  {
    var c, s1 := s.txns[t].call, Step(s, Advance(t, newId, now));
    TakeTurn(s, t, 2, newId, now);
    if s1.txns[t].pc.Finished? {
      FinishedStays(s1, t, 1, newId, now);
    } else {
      TakeTurn(s1, t, 1, newId, now);
      FinishForgets(s, s1, t, Reparent(s.db, c.kind, c.id, c.target, c.order));
    }
  }

  lemma MoveFromChecked(s: State, t: TxId, newId: Id, now: int)
    requires t in s.txns && s.txns[t].call.Move? && s.txns[t].pc.Checked?
    requires s.txns[t].call.target.Some? ==> s.txns[t].call.target.value in s.db.folders
    ensures var c := s.txns[t].call;
            Run(s, Turns(t, 3, newId, now)) ==
            Finish(s, t, if c.kind.FolderKind? && c.target.Some? && Descends(s.db.folders, c.target.value, c.id)
                         then Err(FolderCycle) else Reparent(s.db, c.kind, c.id, c.target, c.order))
  {
    var c, s1 := s.txns[t].call, Step(s, Advance(t, newId, now));
    TakeTurn(s, t, 3, newId, now);
    if s1.txns[t].pc.Finished? {
      FinishedStays(s1, t, 2, newId, now);
    } else {
      MoveFromWalked(s1, t, newId, now);
      FinishForgets(s, s1, t, Reparent(s.db, c.kind, c.id, c.target, c.order));
    }
  }

  lemma MoveFromLocked(s: State, t: TxId, newId: Id, now: int)
    requires t in s.txns && s.txns[t].call.Move? && s.txns[t].pc.Locked?
    requires var c := s.txns[t].call;
             c.id in s.db.Rows(c.kind) && s.db.Rows(c.kind)[c.id].project == s.txns[t].pc.project
    ensures var c := s.txns[t].call;
            Run(s, Turns(t, 4, newId, now)) == Finish(s, t, MoveResult(s.db, c.kind, c.id, c.target, c.order))
  {
    var c, s1 := s.txns[t].call, Step(s, Advance(t, newId, now));
    TakeTurn(s, t, 4, newId, now);
    if s1.txns[t].pc.Finished? {
      FinishedStays(s1, t, 3, newId, now);
    } else {
      MoveFromChecked(s1, t, newId, now);
      FinishForgets(s, s1, t, MoveResult(s.db, c.kind, c.id, c.target, c.order));
    }
  }

  /** A move nobody interrupts is one atomic step: what the store's method does, and no lock left behind. */
  lemma MoveAloneMatches(s: State, t: TxId, newId: Id, now: int)
    requires DbOk(s.db) && t in s.txns && s.txns[t].call.Move? && s.txns[t].pc.Started?
    requires var c := s.txns[t].call;
             c.id in s.db.Rows(c.kind) ==> s.db.Rows(c.kind)[c.id].project !in s.locks
    ensures var c := s.txns[t].call;
            Run(s, Turns(t, 6, newId, now)) == Finish(s, t, MoveResult(s.db, c.kind, c.id, c.target, c.order))
  {
    var c, s1 := s.txns[t].call, Step(s, Advance(t, newId, now));
    TakeTurn(s, t, 6, newId, now);
    if c.id in s.db.Rows(c.kind) {
      assert NodeOk(s.db, s.db.Rows(c.kind)[c.id]);
      var s2 := Step(s1, Advance(t, newId, now));
      TakeTurn(s1, t, 5, newId, now);
      MoveFromLocked(s2, t, newId, now);
      FinishForgets(s, s2, t, MoveResult(s.db, c.kind, c.id, c.target, c.order));
    } else {
      FinishedStays(s1, t, 5, newId, now);
    }
  }

  lemma ReorderFromChecked(s: State, t: TxId, newId: Id, now: int)
    requires t in s.txns && s.txns[t].call.Reorder? && s.txns[t].pc.Checked?
    requires TargetInProject(s.db, s.txns[t].call.target, s.txns[t].pc.project)
    ensures var c := s.txns[t].call;
            Run(s, Turns(t, 2, newId, now)) ==
            Finish(s, t, ReorderResult(s.db, c.kind, s.txns[t].pc.project, c.target, c.ids))
  {
    var c, s1 := s.txns[t].call, Step(s, Advance(t, newId, now));
    TakeTurn(s, t, 2, newId, now);
    if s1.txns[t].pc.Finished? {
      FinishedStays(s1, t, 1, newId, now);
    } else {
      TakeTurn(s1, t, 1, newId, now);
      FinishForgets(s, s1, t, ReorderResult(s.db, c.kind, s.txns[t].pc.project, c.target, c.ids));
    }
  }

  lemma ReorderFromLocked(s: State, t: TxId, newId: Id, now: int)
    requires t in s.txns && s.txns[t].call.Reorder? && s.txns[t].pc.Locked?
    ensures var c := s.txns[t].call;
            Run(s, Turns(t, 3, newId, now)) ==
            Finish(s, t, ReorderResult(s.db, c.kind, s.txns[t].pc.project, c.target, c.ids))
  {
    var c, s1 := s.txns[t].call, Step(s, Advance(t, newId, now));
    TakeTurn(s, t, 3, newId, now);
    if s1.txns[t].pc.Finished? {
      FinishedStays(s1, t, 2, newId, now);
    } else {
      ReorderFromChecked(s1, t, newId, now);
      FinishForgets(s, s1, t, ReorderResult(s.db, c.kind, s.txns[t].pc.project, c.target, c.ids));
    }
  }

  /** The same for a reorder of a live project. */
  lemma ReorderAloneMatches(s: State, t: TxId, newId: Id, now: int)
    requires t in s.txns && s.txns[t].call.Reorder? && s.txns[t].pc.Started?
    requires s.txns[t].call.project in s.db.projects && s.txns[t].call.project !in s.locks
    ensures var c := s.txns[t].call;
            Run(s, Turns(t, 5, newId, now)) == Finish(s, t, ReorderResult(s.db, c.kind, c.project, c.target, c.ids))
  {
    var c, s1 := s.txns[t].call, Step(s, Advance(t, newId, now));
    var s2 := Step(s1, Advance(t, newId, now));
    TakeTurn(s, t, 5, newId, now);
    TakeTurn(s1, t, 4, newId, now);
    ReorderFromLocked(s2, t, newId, now);
    FinishForgets(s, s2, t, ReorderResult(s.db, c.kind, c.project, c.target, c.ids));
  }

  lemma CreateFromChecked(s: State, t: TxId, newId: Id, now: int)
    requires t in s.txns && s.txns[t].call.Create? && s.txns[t].pc.Checked? && newId !in s.issued
    requires s.txns[t].pc.project in s.db.projects
    requires TargetInProject(s.db, s.txns[t].call.target, s.txns[t].pc.project)
    ensures var c := s.txns[t].call;
            var r := Insert(s.db, c.kind, newId, s.txns[t].pc.project, c.target, now, c.settings);
            Run(s, Turns(t, 2, newId, now)) ==
            Finish(s, t, r).(issued := s.issued + if r.Ok? then {newId} else {})
  {
    var c, s1 := s.txns[t].call, Step(s, Advance(t, newId, now));
    TakeTurn(s, t, 2, newId, now);
    if s1.txns[t].pc.Finished? {
      FinishedStays(s1, t, 1, newId, now);
    } else {
      TakeTurn(s1, t, 1, newId, now);
      FinishForgets(s, s1, t, Insert(s.db, c.kind, newId, s.txns[t].pc.project, c.target, now, c.settings));
    }
  }

  /** The same for a create in a live project with a fresh id, which is used up by success. */
  lemma CreateAloneMatches(s: State, t: TxId, newId: Id, now: int)
    requires t in s.txns && s.txns[t].call.Create? && s.txns[t].pc.Started?
    requires s.txns[t].call.project in s.db.projects && newId !in s.issued
    ensures var c := s.txns[t].call;
            var r := CreateResult(s.db, c.kind, newId, c.project, c.target, now, c.settings);
            Run(s, Turns(t, 4, newId, now)) == Finish(s, t, r).(issued := s.issued + if r.Ok? then {newId} else {})
  {
    var c, s1 := s.txns[t].call, Step(s, Advance(t, newId, now));
    var s2 := Step(s1, Advance(t, newId, now));
    TakeTurn(s, t, 4, newId, now);
    TakeTurn(s1, t, 3, newId, now);
    if s2.txns[t].pc.Finished? {
      FinishedStays(s2, t, 2, newId, now);
    } else {
      CreateFromChecked(s2, t, newId, now);
      FinishForgets(s, s2, t, CreateResult(s.db, c.kind, newId, c.project, c.target, now, c.settings));
    }
  }

  /** The same for the three steps of a proxy update, which takes no lock. */
  lemma PatchAloneMatches(s: State, t: TxId, newId: Id, now: int)
    requires t in s.txns && s.txns[t].call.Patch? && s.txns[t].pc.Started?
    ensures var c := s.txns[t].call;
            Run(s, Turns(t, 3, newId, now)) == Finish(s, t, PatchResult(s.db, c.kind, c.id, c.patch))
  {
    var c, s1 := s.txns[t].call, Step(s, Advance(t, newId, now));
    TakeTurn(s, t, 3, newId, now);
    if s1.txns[t].pc.Finished? {
      FinishedStays(s1, t, 2, newId, now);
    } else {
      var s2 := Step(s1, Advance(t, newId, now));
      TakeTurn(s1, t, 2, newId, now);
      if s2.txns[t].pc.Finished? {
        FinishedStays(s2, t, 1, newId, now);
        FinishForgets(s, s1, t, PatchResult(s.db, c.kind, c.id, c.patch));
      } else {
        TakeTurn(s2, t, 1, newId, now);
        FinishForgets(s, s2, t, PatchResult(s.db, c.kind, c.id, c.patch));
      }
    }
  }

  // ------------------------------------------- the steps outside transactions

  /** Any call may begin at any time under a fresh number; a patch has passed its own check first. */
  lemma BeginRuns(s: State, t: TxId, call: Call)
    requires t !in s.txns && (call.Patch? ==> (call.patch.proxyId.Some? <==> call.patch.mode.ViaProxy?))
    ensures Step(s, Begin(t, call)) == s.(txns := s.txns[t := Txn(call, Started)])
  {
  }

  /** A reorder has selected the row FOR UPDATE and not committed. */
  ghost predicate Selected(s: State, kind: Kind, i: Id) {
    exists t :: t in s.txns && s.txns[t].pc.Listed? && s.txns[t].call.Reorder? && s.txns[t].call.kind == kind &&
                i in s.txns[t].call.ids
  }

  /** A delete waits exactly for reorders that have selected a row it would remove, and otherwise is done at once. */
  lemma DeleteRuns(s: State, kind: Kind, id: Id)
    ensures var s', gone := Step(s, Delete(kind, id)), DeleteNode(s.db, kind, id);
            || (s' == s && exists k, i :: i in s.db.Rows(k) && i !in gone.Rows(k) && Selected(s, k, i))
            || (s' == s.(db := s'.db) && DeletePromise(s.db, kind, id, s'.db) &&
                forall k, i :: Selected(s, k, i) && i in s.db.Rows(k) ==> i in s'.db.Rows(k))
  {
    DeleteKeepsPromise(s.db, kind, id);
    assert forall k, i :: RowLocked(s, k, i) <==> Selected(s, k, i);
    if DeleteWaits(s, kind, id) {
      var k, i :| i in s.db.Rows(k) && i !in DeleteNode(s.db, kind, id).Rows(k) && RowLocked(s, k, i);
      assert Selected(s, k, i);
    }
  }

  /** Dropping a project waits exactly for a transaction that holds its lock. */
  lemma DropProjectRuns(s: State, project: Id)
    ensures var s' := Step(s, DropProject(project));
            if project in s.locks then s' == s
            else s' == s.(db := s'.db) && DropProjectPromise(s.db, project, s'.db)
  {
    DropProjectKeepsPromise(s.db, project);
  }

  lemma DropProxyRuns(s: State, proxy: Id)
    ensures var s' := Step(s, DropProxy(proxy));
            s' == s.(db := s'.db) && DropProxyPromise(s.db, proxy, s'.db)
  {
    DropProxyKeepsPromise(s.db, proxy);
  }

  /** A fresh proxy of a live project is there to be referred to; otherwise nothing happens. */
  lemma CreateProxyRuns(s: State, proxy: Id, owner: Id)
    ensures var s' := Step(s, CreateProxy(proxy, owner));
            if proxy in s.issued || owner !in s.db.projects then s' == s
            else
              && s' == s.(db := s'.db, issued := s.issued + {proxy})
              && s'.db == Db(s.db.projects, s.db.folders, s.db.requests, s.db.proxies[proxy := owner])
  {
  }

  /**
   What a caller is told when a row its write refers to went away after the
   check: a bad target, except for a folder move; a project that went away is
   an unexpected error. Nothing is written, and no lock is left.
   */
  lemma GoneAtWrite(s: State, t: TxId, newId: Id, now: int)
    requires t in s.txns && newId !in s.issued
    ensures var c, pc, s' := s.txns[t].call, s.txns[t].pc, Step(s, Advance(t, newId, now));
            var gone := c.Move? && pc.Placed? && c.id in s.db.Rows(c.kind) &&
                        c.target.Some? && c.target.value !in s.db.folders;
            gone ==>
              && s'.txns[t].pc == Finished(Some(if c.kind.FolderKind? then ForeignKey(ToParent) else InvalidTarget))
              && s'.db == s.db && s'.locks == Release(s.locks, t)
    ensures var c, pc, s' := s.txns[t].call, s.txns[t].pc, Step(s, Advance(t, newId, now));
            c.Create? && pc.Placed? ==>
              && (pc.project !in s.db.projects ==>
                    s'.txns[t].pc == Finished(Some(ForeignKey(ToProject))) && s'.db == s.db)
              && (pc.project in s.db.projects && c.target.Some? && c.target.value !in s.db.folders ==>
                    s'.txns[t].pc == Finished(Some(InvalidTarget)) && s'.db == s.db)
    ensures var c, pc, s' := s.txns[t].call, s.txns[t].pc, Step(s, Advance(t, newId, now));
            c.Patch? && pc.Checked? && c.id in s.db.Rows(c.kind) &&
            c.patch.proxyId.Some? && c.patch.proxyId.value !in s.db.proxies ==>
              s'.txns[t].pc == Finished(Some(InvalidTarget)) && s'.db == s.db
  {
  }
}
