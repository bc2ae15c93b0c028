/**
 What each tree operation does on tables nobody else touches: its result as a
 function of the tables, and the promise that result keeps, stated on the rows
 and columns themselves. A promise has one case per outcome; the cases exclude
 each other, so each is exact in both directions.
 */
module Outcomes {
  import opened Common
  import opened Tables
  import opened Tree
  import opened Ordering

  // ---------------------------------------------------------------- results

  /** What `MoveFolder` / `MoveRequest` decide, as one condition per outcome. */
  ghost function MoveResult(db: Db, kind: Kind, id: Id, target: Option<Id>, order: Option<Int32>): Result<Db, Fault> {
    if id !in db.Rows(kind) then Err(NotFound)
    else if !TargetInProject(db, target, db.Rows(kind)[id].project) then Err(InvalidTarget)
    else if kind.FolderKind? && target.Some? && Descends(db.folders, target.value, id) then Err(FolderCycle)
    else Reparent(db, kind, id, target, order)
  }

  ghost function ReorderResult(db: Db, kind: Kind, project: Id, target: Option<Id>, ids: seq<Id>): Result<Db, Fault> {
    if !TargetInProject(db, target, project) then Err(InvalidTarget)
    else if !(NoDuplicates(ids) && Elements(ids) == Siblings(db.Rows(kind), project, target)) then Err(BadList)
    else if Base(kind) + |ids| > MAX_INT32 + 1 then Err(OutOfRange)
    else Ok(db.WithRows(kind, BulkOrder(db.Rows(kind), kind, project, target, ids)))
  }

  ghost function CreateResult(
    db: Db, kind: Kind, id: Id, project: Id, target: Option<Id>, now: int, settings: string)
    : Result<Db, Fault>
  {
    if !TargetInProject(db, target, project) then Err(InvalidTarget)
    else Insert(db, kind, id, project, target, now, settings)
  }

  /** The proxy object of a node update: `requireProxyInProject`, then the write. */
  function PatchResult(db: Db, kind: Kind, id: Id, patch: ProxyPatch): Result<Db, Fault> {
    if id !in db.Rows(kind) then Err(NotFound)
    else if patch.proxyId.Some? && !ProxyInProject(db, patch.proxyId.value, db.Rows(kind)[id].project) then
      Err(InvalidTarget)
    else SetProxy(db, kind, id, patch)
  }

  // --------------------------------------------------------------- promises

  /** The table of the kind is `rows`, and nothing else differs from db. */
  ghost predicate Becomes(db: Db, db': Db, kind: Kind, rows: Table) {
    match kind
    case FolderKind => db' == Db(db.projects, rows, db.requests, db.proxies)
    case RequestKind => db' == Db(db.projects, db.folders, rows, db.proxies)
  }

  /** A row of the group other than `id`. */
  ghost predicate Sibling(rows: Table, project: Id, parent: Option<Id>, id: Id, i: Id) {
    i in rows && i != id && rows[i].project == project && rows[i].parent == parent
  }

  /** 0 without siblings, else one past the largest position among them. */
  ghost predicate NextFree(rows: Table, project: Id, parent: Option<Id>, id: Id, position: Int32) {
    && (forall i :: Sibling(rows, project, parent, id, i) ==> rows[i].sortOrder < position)
    && (if exists i :: Sibling(rows, project, parent, id, i)
        then exists i :: Sibling(rows, project, parent, id, i) && rows[i].sortOrder == position - 1
        else position == 0)
  }

  ghost predicate NoneFree(rows: Table, project: Id, parent: Option<Id>, id: Id) {
    exists i :: Sibling(rows, project, parent, id, i) && rows[i].sortOrder == MAX_INT32
  }

  ghost predicate IsFolderOf(db: Db, target: Option<Id>, project: Id) {
    match target
    case None => true
    case Some(f) => f in db.folders && db.folders[f].project == project
  }

  ghost predicate BelowItself(db: Db, kind: Kind, id: Id, target: Option<Id>) {
    kind.FolderKind? && target.Some? && exists n: nat :: Climbs(db.folders, target.value, id, n)
  }

  ghost predicate MovePromise(
    db: Db, kind: Kind, id: Id, target: Option<Id>, order: Option<Int32>, r: Result<Db, Fault>)
  {
    var rows := if kind.FolderKind? then db.folders else db.requests;
    if id !in rows then r == Err(NotFound)
    else if !IsFolderOf(db, target, rows[id].project) then r == Err(InvalidTarget)
    else if BelowItself(db, kind, id, target) then r == Err(FolderCycle)
    else if order.None? && NoneFree(rows, rows[id].project, target, id) then r == Err(OutOfRange)
    else
      r.Ok? && exists position: Int32 ::
        && (if order.Some? then position == order.value else NextFree(rows, rows[id].project, target, id, position))
        && Becomes(db, r.value, kind, rows[id := rows[id].(parent := target, sortOrder := position)])
  }

  ghost predicate CreatePromise(
    db: Db, kind: Kind, id: Id, project: Id, target: Option<Id>, now: int, settings: string, r: Result<Db, Fault>)
  {
    var rows := if kind.FolderKind? then db.folders else db.requests;
    if !IsFolderOf(db, target, project) then r == Err(InvalidTarget)
    else if NoneFree(rows, project, target, id) then r == Err(OutOfRange)
    else if project !in db.projects then r == Err(ForeignKey(ToProject))
    else
      r.Ok? && exists position: Int32 ::
        && NextFree(rows, project, target, id, position)
        && Becomes(db, r.value, kind,
                   rows[id := Node(project, target, position, now, Inherit, None, settings)])
  }

  /** Folders count from 1, requests from 0. */
  ghost predicate Renumbered(rows: Table, rows': Table, kind: Kind, ids: seq<Id>) {
    && rows'.Keys == rows.Keys
    && (forall i :: i in rows && i !in ids ==> rows'[i] == rows[i])
    && (forall k :: 0 <= k < |ids| ==>
          var position := if kind.FolderKind? then k + 1 else k;
          ids[k] in rows && position <= MAX_INT32 && rows'[ids[k]] == rows[ids[k]].(sortOrder := position))
  }

  ghost predicate ReorderPromise(
    db: Db, kind: Kind, project: Id, target: Option<Id>, ids: seq<Id>, r: Result<Db, Fault>)
  {
    var rows := if kind.FolderKind? then db.folders else db.requests;
    if !IsFolderOf(db, target, project) then r == Err(InvalidTarget)
    else if !(NoDuplicates(ids) &&
              forall i :: i in ids <==> i in rows && rows[i].project == project && rows[i].parent == target)
    then r == Err(BadList)
    else if |ids| > MAX_INT32 + (if kind.FolderKind? then 0 else 1) then r == Err(OutOfRange)
    else r.Ok? && exists rows' :: Becomes(db, r.value, kind, rows') && Renumbered(rows, rows', kind, ids)
  }

  ghost predicate PatchPromise(db: Db, kind: Kind, id: Id, patch: ProxyPatch, r: Result<Db, Fault>) {
    var rows := if kind.FolderKind? then db.folders else db.requests;
    if id !in rows then r == Err(NotFound)
    else if patch.proxyId.Some? &&
            !(patch.proxyId.value in db.proxies && db.proxies[patch.proxyId.value] == rows[id].project)
    then r == Err(InvalidTarget)
    else r.Ok? && Becomes(db, r.value, kind, rows[id := rows[id].(proxyMode := patch.mode, proxyId := patch.proxyId)])
  }

  /** A request goes alone; a folder with everything from which a chain of parents leads to it. */
  ghost predicate DeletePromise(db: Db, kind: Kind, id: Id, db': Db) {
    && db'.projects == db.projects && db'.proxies == db.proxies
    && (forall f :: f in db'.folders <==>
          f in db.folders && (kind.FolderKind? ==> forall n: nat :: !Climbs(db.folders, f, id, n)))
    && (forall q :: q in db'.requests <==>
          q in db.requests &&
          match kind
          case RequestKind => q != id
          case FolderKind =>
            db.requests[q].parent.Some? ==> forall n: nat :: !Climbs(db.folders, db.requests[q].parent.value, id, n))
    && (forall f :: f in db'.folders ==> db'.folders[f] == db.folders[f])
    && (forall q :: q in db'.requests ==> db'.requests[q] == db.requests[q])
  }

  ghost predicate Forgotten(t: Table, t': Table, proxy: Id) {
    t'.Keys == t.Keys &&
    forall i :: i in t ==>
      t'[i] == if t[i].proxyId == Some(proxy) then t[i].(proxyId := None) else t[i]
  }

  /** The proxy goes, the rows that named it keep their mode and lose the id, all else stays. */
  ghost predicate DropProxyPromise(db: Db, proxy: Id, db': Db) {
    && db'.projects == db.projects
    && Forgotten(db.folders, db'.folders, proxy) && Forgotten(db.requests, db'.requests, proxy)
    && (forall q :: q in db'.proxies <==> q in db.proxies && q != proxy)
    && (forall q :: q in db'.proxies ==> db'.proxies[q] == db.proxies[q])
  }

  ghost predicate OnlyOthers(t: Table, t': Table, project: Id) {
    && (forall i :: i in t' <==> i in t && t[i].project != project)
    && (forall i :: i in t' ==> t'[i] == t[i])
  }

  /** The project goes with every row of it, all else stays. */
  ghost predicate DropProjectPromise(db: Db, project: Id, db': Db) {
    && (forall p :: p in db'.projects <==> p in db.projects && p != project)
    && OnlyOthers(db.folders, db'.folders, project) && OnlyOthers(db.requests, db'.requests, project)
    && (forall q :: q in db'.proxies <==> q in db.proxies && db.proxies[q] != project)
    && (forall q :: q in db'.proxies ==> db'.proxies[q] == db.proxies[q])
  }

  // ------------------------------------------------------------ they are kept

  lemma SiblingsAre(rows: Table, project: Id, parent: Option<Id>, id: Id)
    ensures forall i :: i in Siblings(rows, project, parent) - {id} <==> Sibling(rows, project, parent, id, i)
  {
  }

  /** The query of an append, read on the rows. */
  lemma NextOrderIsNextFree(rows: Table, project: Id, parent: Option<Id>, id: Id)
    ensures var others := Siblings(rows, project, parent) - {id};
            var next := NextOrderOf(rows, others);
            if NoneFree(rows, project, parent, id) then next == Err(OutOfRange)
            else next.Ok? && NextFree(rows, project, parent, id, next.value)
  {
    var others := Siblings(rows, project, parent) - {id};
    var next := NextOrderOf(rows, others);
    SiblingsAre(rows, project, parent, id);
    if others != {} {
      var m :| IsMaxOrder(rows, others, m) && next == if m == MAX_INT32 then Err(OutOfRange) else Ok(m + 1);
      var top :| top in others && rows[top].sortOrder == m;
      assert Sibling(rows, project, parent, id, top);
    }
  }

  /** Every outcome of a move, and on success the one row that changed and its two new columns. */
  lemma MoveKeepsPromise(db: Db, kind: Kind, id: Id, target: Option<Id>, order: Option<Int32>)
    ensures MovePromise(db, kind, id, target, order, MoveResult(db, kind, id, target, order))
  {
    var rows := db.Rows(kind);
    var r := MoveResult(db, kind, id, target, order);
    if id in rows {
      NextOrderIsNextFree(rows, rows[id].project, target, id);
      if r.Ok? {
        var position := r.value.Rows(kind)[id].sortOrder;
        assert Becomes(db, r.value, kind, rows[id := rows[id].(parent := target, sortOrder := position)]);
      }
    }
  }

  /** Every outcome of a create, and on success the whole new row. */
  lemma CreateKeepsPromise(
    db: Db, kind: Kind, id: Id, project: Id, target: Option<Id>, now: int, settings: string)
    requires id !in db.Rows(kind)
    ensures CreatePromise(db, kind, id, project, target, now, settings,
                          CreateResult(db, kind, id, project, target, now, settings))
  {
    var rows := db.Rows(kind);
    var r := CreateResult(db, kind, id, project, target, now, settings);
    assert Siblings(rows, project, target) - {id} == Siblings(rows, project, target);
    NextOrderIsNextFree(rows, project, target, id);
    if r.Ok? {
      var position := r.value.Rows(kind)[id].sortOrder;
      assert Becomes(db, r.value, kind, rows[id := Node(project, target, position, now, Inherit, None, settings)]);
    }
  }

  lemma BulkOrderRenumbers(t: Table, kind: Kind, project: Id, parent: Option<Id>, ids: seq<Id>)
    requires Base(kind) + |ids| <= MAX_INT32 + 1
    requires NoDuplicates(ids) && Elements(ids) <= Siblings(t, project, parent)
    ensures Renumbered(t, BulkOrder(t, kind, project, parent, ids), kind, ids)
  {
    forall k | 0 <= k < |ids| ensures ids[k] in Siblings(t, project, parent) && IndexOf(ids, ids[k]) == k {
      assert ids[k] in Elements(ids);
      IndexOfDistinct(ids, k);
    }
  }

  /** Every outcome of a reorder, and on success the position of every row. */
  lemma ReorderKeepsPromise(db: Db, kind: Kind, project: Id, target: Option<Id>, ids: seq<Id>)
    ensures ReorderPromise(db, kind, project, target, ids, ReorderResult(db, kind, project, target, ids))
  {
    var rows := db.Rows(kind);
    var r := ReorderResult(db, kind, project, target, ids);
    assert Elements(ids) == Siblings(rows, project, target) <==>
           forall i :: i in ids <==> i in rows && rows[i].project == project && rows[i].parent == target by {
      assert forall i :: i in ids <==> i in Elements(ids);
      assert forall i :: i in Siblings(rows, project, target) <==>
                         i in rows && rows[i].project == project && rows[i].parent == target;
    }
    if r.Ok? {
      BulkOrderRenumbers(rows, kind, project, target, ids);
      assert Becomes(db, r.value, kind, BulkOrder(rows, kind, project, target, ids));
    }
  }

  /** Every outcome of a proxy update, and on success the two columns it writes. */
  lemma PatchKeepsPromise(db: Db, kind: Kind, id: Id, patch: ProxyPatch)
    ensures PatchPromise(db, kind, id, patch, PatchResult(db, kind, id, patch))
  {
  }

  lemma DeleteKeepsPromise(db: Db, kind: Kind, id: Id)
    ensures DeletePromise(db, kind, id, DeleteNode(db, kind, id))
  {
    assert forall f :: f in Subtree(db.folders, id) <==>
                       f in db.folders && exists n: nat :: Climbs(db.folders, f, id, n);
    forall p, n: nat | Climbs(db.folders, p, id, n) ensures p in Subtree(db.folders, id) {
    }
  }

  lemma DropProxyKeepsPromise(db: Db, proxy: Id)
    ensures DropProxyPromise(db, proxy, DeleteProxy(db, proxy))
  {
  }

  lemma DropProjectKeepsPromise(db: Db, project: Id)
    ensures DropProjectPromise(db, project, DeleteProject(db, project))
  {
  }
}
