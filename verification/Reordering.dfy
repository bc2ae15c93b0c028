/**
 A reorder amid other traffic: what the commit fixes, when the whole group
 lists as submitted, and how long the order lasts.
 */
module Reordering {
  import opened Common
  import opened Tables
  import opened Tree
  import opened Ordering
  import opened Interleaving
  import opened Outcomes
  import opened Store

  /** The rows one reorder is about: those of one kind that share a project and a parent. */
  datatype Group = Group(kind: Kind, project: Id, parent: Option<Id>) {
    function In(db: Db): set<Id> {
      Siblings(db.Rows(kind), project, parent)
    }

    /** A possible answer to the listing query. */
    ghost predicate Lists(db: Db, list: seq<Id>) {
      OrderBy(db.Rows(kind), In(db), list)
    }
  }

  /** The transaction has checked its list against the group and is about to write and commit. */
  ghost predicate Committing(s: State, t: TxId) {
    t in s.txns && s.txns[t].call.Reorder? && s.txns[t].pc.Listed? &&
    Base(s.txns[t].call.kind) + |s.txns[t].call.ids| <= MAX_INT32 + 1
  }

  function GroupOf(x: Txn): Group
    requires x.call.Reorder? && x.pc.Listed?
  {
    Group(x.call.kind, x.pc.project, x.call.target)
  }

  // --------------------------------------------------------- at the commit

  lemma CommitWrites(s: State, t: TxId, newId: Id, now: int)
    requires Inv(s) && Committing(s, t)
    ensures var c, g := s.txns[t].call, GroupOf(s.txns[t]);
            && NoDuplicates(c.ids) && Elements(c.ids) <= g.In(s.db)
            && Step(s, Advance(t, newId, now)).db ==
               s.db.WithRows(g.kind, BulkOrder(s.db.Rows(g.kind), g.kind, g.project, g.parent, c.ids))
  {
    assert TxnOk(s, t);
  }

  lemma CommitFacts(s: State, t: TxId, newId: Id, now: int, list: seq<Id>)
    requires Inv(s) && Committing(s, t)
    ensures var ids, g := s.txns[t].call.ids, GroupOf(s.txns[t]);
            var db' := Step(s, Advance(t, newId, now)).db;
            && g.In(db') == g.In(s.db)
            && (g.Lists(db', list) ==> Restrict(list, ids) == ids)
            && (g.Lists(db', ids) <==> g.In(s.db) == Elements(ids))
            && (forall i :: i in db'.Rows(g.kind) && i !in ids ==> db'.Rows(g.kind)[i] == s.db.Rows(g.kind)[i])
  {
    CommitWrites(s, t, newId, now);
    var ids, g := s.txns[t].call.ids, GroupOf(s.txns[t]);
    var rows := s.db.Rows(g.kind);
    var rows' := BulkOrder(rows, g.kind, g.project, g.parent, ids);
    assert Siblings(rows', g.project, g.parent) == Siblings(rows, g.project, g.parent);
    ListsAsSubmittedIff(rows, g.kind, g.project, g.parent, ids);
    if OrderBy(rows', g.In(s.db), list) {
      ReorderFixesOrder(rows, g.kind, g.project, g.parent, ids, list);
    }
  }

  /**
   A reorder that commits in the middle of other traffic: whatever was created
   in the group since the list was checked, the listing after the commit shows
   the submitted rows in the submitted order, and no row outside the list
   changed. The group lists as exactly the submitted list if and only if
   nothing was created in it since the check.
   */
  lemma CommittedReorderFixesOrder(actions: seq<Action>, t: TxId, newId: Id, now: int, list: seq<Id>)
    requires Committing(Run(INITIAL, actions), t)
    ensures var s := Run(INITIAL, actions);
            var ids, g := s.txns[t].call.ids, GroupOf(s.txns[t]);
            var db' := Step(s, Advance(t, newId, now)).db;
            && (g.Lists(db', list) ==> Restrict(list, ids) == ids)
            && (g.Lists(db', ids) <==> g.In(s.db) == Elements(ids))
            && (forall i :: i in db'.Rows(g.kind) && i !in ids ==> db'.Rows(g.kind)[i] == s.db.Rows(g.kind)[i])
  {
    RunKeeps(INITIAL, actions);
    CommitFacts(Run(INITIAL, actions), t, newId, now, list);
  }

  // ------------------------------------------------------ after the commit

  /**
   The step that would change the order of a group for rows already there: a
   reorder of it, a move into it with an explicit position, or a move that
   appends one of the given rows again.
   */
  ghost predicate Disturbs(s: State, a: Action, g: Group, rows: set<Id>) {
    Step(s, a).db != s.db && a.Advance? && a.t in s.txns &&
    var c, pc := s.txns[a.t].call, s.txns[a.t].pc;
    || (c.Reorder? && pc.Listed? && Group(c.kind, pc.project, c.target) == g)
    || (c.Move? && pc.Placed? && Group(c.kind, pc.project, c.target) == g && (c.order.Some? || c.id in rows))
  }

  ghost predicate Undisturbed(s: State, actions: seq<Action>, g: Group, rows: set<Id>)
    decreases |actions|
  {
    actions == [] || (!Disturbs(s, actions[0], g, rows) && Undisturbed(Step(s, actions[0]), actions[1..], g, rows))
  }

  /** The rows that join the group in a run through one of the given transactions. */
  ghost function JoinedBy(s: State, actions: seq<Action>, g: Group, us: set<TxId>): set<Id>
    decreases |actions|
  {
    if actions == [] then {}
    else
      (if actions[0].Advance? && actions[0].t in us then g.In(Step(s, actions[0]).db) - g.In(s.db) else {}) +
      JoinedBy(Step(s, actions[0]), actions[1..], g, us)
  }

  /**
   Rows of the group at `was` that are still in it hold their places, and the
   newcomers come after all of them, `early` ones excepted.
   */
  ghost predicate Settled(was: Db, db: Db, g: Group, early: set<Id>) {
    && Holds(was, db, g)
    && forall i, j :: i in g.In(db) && i in g.In(was) && j in g.In(db) && j !in g.In(was) && j !in early ==>
         db.Rows(g.kind)[i].sortOrder < db.Rows(g.kind)[j].sortOrder
  }

  ghost predicate Holds(was: Db, db: Db, g: Group) {
    forall i :: i in g.In(db) && i in g.In(was) ==>
      && db.Rows(g.kind)[i].sortOrder == was.Rows(g.kind)[i].sortOrder
      && db.Rows(g.kind)[i].createdAt == was.Rows(g.kind)[i].createdAt
  }

  /** A position behind the rows of the group at `was` that are still in it. */
  ghost predicate Behind(was: Db, db: Db, g: Group, order: Int32) {
    forall i :: i in g.In(db) && i in g.In(was) ==> db.Rows(g.kind)[i].sortOrder < order
  }

  /** The transaction has read where in the group it will append a row that was not there. */
  ghost predicate Joining(was: Db, x: Txn, g: Group) {
    x.pc.Placed? && (x.call.Create? || (x.call.Move? && x.call.order.None? && x.call.id !in g.In(was))) &&
    Group(x.call.kind, x.pc.project, x.call.target) == g
  }

  /** The creates in flight whose position in the group was read too early: some row is not before it. */
  ghost function Late(s: State, g: Group): set<TxId> {
    set u | u in s.txns && s.txns[u].call.Create? && Joining(s.db, s.txns[u], g) &&
            !Behind(s.db, s.db, g, s.txns[u].pc.order)
  }

  /** Every position read since, which is all but those of `us`, is behind the rows that were there. */
  ghost predicate ReadBehind(was: Db, s: State, g: Group, us: set<TxId>) {
    forall u :: u in s.txns && !(u in us && s.txns[u].call.Create?) && Joining(was, s.txns[u], g) ==>
      Behind(was, s.db, g, s.txns[u].pc.order)
  }

  /** The group lost rows at most, and the rest hold their places. */
  ghost predicate Thins(db: Db, db': Db, g: Group) {
    forall i :: i in g.In(db') ==>
      i in g.In(db) && db'.Rows(g.kind)[i].sortOrder == db.Rows(g.kind)[i].sortOrder &&
      db'.Rows(g.kind)[i].createdAt == db.Rows(g.kind)[i].createdAt
  }

  /** One row was placed in the group, and the rest hold their places. */
  ghost predicate Joins(db: Db, db': Db, g: Group, id: Id) {
    id in g.In(db') && forall i :: i in g.In(db') && i != id ==>
      i in g.In(db) && db'.Rows(g.kind)[i].sortOrder == db.Rows(g.kind)[i].sortOrder &&
      db'.Rows(g.kind)[i].createdAt == db.Rows(g.kind)[i].createdAt
  }

  /** The write leaves the rows that were there where they are. */
  ghost predicate Spares(was: Db, db: Db, db': Db, g: Group) {
    forall i :: i in g.In(db') && i in g.In(was) ==>
      i in g.In(db) && db'.Rows(g.kind)[i].sortOrder == db.Rows(g.kind)[i].sortOrder
  }

  lemma ThinsSettled(was: Db, db: Db, db': Db, g: Group, early: set<Id>)
    requires Settled(was, db, g, early) && Thins(db, db', g)
    ensures Settled(was, db', g, early) && Spares(was, db, db', g)
  {
  }

  lemma JoinsSettled(was: Db, db: Db, db': Db, g: Group, id: Id, early: set<Id>)
    requires Settled(was, db, g, early) && Joins(db, db', g, id) && id !in g.In(was)
    requires id in early || Behind(was, db, g, db'.Rows(g.kind)[id].sortOrder)
    ensures Settled(was, db', g, early) && Spares(was, db, db', g)
  {
  }

  lemma SettledMore(was: Db, db: Db, g: Group, early: set<Id>, early': set<Id>)
    requires Settled(was, db, g, early) && early <= early'
    ensures Settled(was, db, g, early')
  {
  }

  /** What the positions in flight need of a step of t. */
  lemma ReadBehindKept(was: Db, s: State, s': State, t: TxId, g: Group, us: set<TxId>)
    requires ReadBehind(was, s, g, us) && Spares(was, s.db, s'.db, g)
    requires forall u :: u in s'.txns && u != t ==> u in s.txns && s'.txns[u] == s.txns[u]
    requires t in s'.txns && Joining(was, s'.txns[t], g) ==>
               Behind(was, s'.db, g, s'.txns[t].pc.order) || (t in s.txns && s'.txns[t] == s.txns[t])
    ensures ReadBehind(was, s', g, us)
  {
  }

  /** The state keeps both: what is stored, and what is about to be. */
  ghost predicate Lasting(was: Db, s: State, g: Group, us: set<TxId>, early: set<Id>) {
    Settled(was, s.db, g, early) && ReadBehind(was, s, g, us)
  }

  lemma InsertJoins(
    db: Db, kind: Kind, id: Id, project: Id, parent: Option<Id>, order: Int32, now: int, settings: string, g: Group)
    requires InsertAt(db, kind, id, project, parent, order, now, settings).Ok? && id !in db.Rows(kind)
    ensures var db' := InsertAt(db, kind, id, project, parent, order, now, settings).value;
            if Group(kind, project, parent) == g then Joins(db, db', g, id) && db'.Rows(kind)[id].sortOrder == order
            else Thins(db, db', g)
  {
  }

  lemma ReparentJoins(db: Db, kind: Kind, id: Id, parent: Option<Id>, order: Int32, g: Group)
    requires Reparent(db, kind, id, parent, Some(order)).Ok?
    ensures var db' := Reparent(db, kind, id, parent, Some(order)).value;
            if Group(kind, db.Rows(kind)[id].project, parent) == g
            then Joins(db, db', g, id) && db'.Rows(kind)[id].sortOrder == order
            else Thins(db, db', g)
  {
  }

  // ------------------------------------------------- step by step

  /** Steps of t that write nothing and read no position. */
  lemma QuietLasts(was: Db, s: State, s': State, t: TxId, g: Group, us: set<TxId>, early: set<Id>)
    requires Lasting(was, s, g, us, early) && s'.db == s.db
    requires forall u :: u in s'.txns && u != t ==> u in s.txns && s'.txns[u] == s.txns[u]
    requires t in s'.txns && s'.txns[t].pc.Placed? ==> t in s.txns && s'.txns[t] == s.txns[t]
    ensures Lasting(was, s', g, us, early)
  {
    ReadBehindKept(was, s, s', t, g, us);
  }

  lemma ReadLasts(was: Db, s: State, t: TxId, position: Result<Int32, Fault>, g: Group, us: set<TxId>, early: set<Id>)
    requires Lasting(was, s, g, us, early) && t in s.txns && !s.txns[t].pc.Started? && !s.txns[t].pc.Finished?
    requires position.Ok? && Joining(was, Place(s, t, position).txns[t], g) ==> Behind(was, s.db, g, position.value)
    ensures Lasting(was, Place(s, t, position), g, us, early)
  {
    ReadBehindKept(was, s, Place(s, t, position), t, g, us);
  }

  lemma WriteLasts(was: Db, s: State, s': State, t: TxId, g: Group, us: set<TxId>, early: set<Id>)
    requires ReadBehind(was, s, g, us) && Settled(was, s'.db, g, early) && Spares(was, s.db, s'.db, g)
    requires t in s.txns && t in s'.txns && s'.txns == s.txns[t := s'.txns[t]] && s'.txns[t].pc.Finished?
    ensures Lasting(was, s', g, us, early)
  {
    ReadBehindKept(was, s, s', t, g, us);
  }

  lemma MoveReads(was: Db, s: State, t: TxId, g: Group, us: set<TxId>, early: set<Id>)
    requires Inv(s) && Lasting(was, s, g, us, early) && t in s.txns && s.txns[t].call.Move? && s.txns[t].pc.Walked?
    ensures Lasting(was, AdvanceMove(s, t, s.txns[t].call, s.txns[t].pc), g, us, early)
  {
    var c, rows := s.txns[t].call, s.db.Rows(s.txns[t].call.kind);
    assert TxnOk(s, t);
    if c.id !in rows {
      QuietLasts(was, s, Finish(s, t, Err(NotFound)), t, g, us, early);
    } else if c.order.Some? {
      ReadLasts(was, s, t, Ok(c.order.value), g, us, early);
    } else {
      var others := Siblings(rows, rows[c.id].project, c.target) - {c.id};
      var position := NextOrderOf(rows, others);
      if position.Ok? {
        AboveTheMaximum(rows, others, position.value);
      }
      ReadLasts(was, s, t, position, g, us, early);
    }
  }

  lemma MoveWrites(was: Db, s: State, t: TxId, g: Group, us: set<TxId>, early: set<Id>)
    requires Inv(s) && Lasting(was, s, g, us, early) && t in s.txns && s.txns[t].call.Move? && s.txns[t].pc.Placed?
    requires var c := s.txns[t].call;
             Group(c.kind, s.txns[t].pc.project, c.target) == g ==> c.order.None? && c.id !in g.In(was)
    ensures Lasting(was, AdvanceMove(s, t, s.txns[t].call, s.txns[t].pc), g, us, early)
  {
    var c, pc := s.txns[t].call, s.txns[t].pc;
    var r := Reparent(s.db, c.kind, c.id, c.target, Some(pc.order));
    var s' := AdvanceMove(s, t, c, pc);
    assert TxnOk(s, t);
    if r.Ok? {
      ReparentJoins(s.db, c.kind, c.id, c.target, pc.order, g);
      if Group(c.kind, pc.project, c.target) == g {
        assert Joining(was, s.txns[t], g);
        JoinsSettled(was, s.db, r.value, g, c.id, early);
      } else {
        ThinsSettled(was, s.db, r.value, g, early);
      }
      WriteLasts(was, s, s', t, g, us, early);
    } else {
      QuietLasts(was, s, s', t, g, us, early);
    }
  }

  lemma CreateReads(was: Db, s: State, t: TxId, newId: Id, now: int, g: Group, us: set<TxId>, early: set<Id>)
    requires Lasting(was, s, g, us, early) && t in s.txns && s.txns[t].call.Create? && s.txns[t].pc.Checked?
    ensures Lasting(was, AdvanceCreate(s, t, s.txns[t].call, s.txns[t].pc, newId, now), g, us, early)
  {
    var c, rows := s.txns[t].call, s.db.Rows(s.txns[t].call.kind);
    var others := Siblings(rows, s.txns[t].pc.project, c.target);
    var position := NextOrderOf(rows, others);
    if position.Ok? {
      AboveTheMaximum(rows, others, position.value);
    }
    ReadLasts(was, s, t, position, g, us, early);
  }

  lemma CreateWrites(was: Db, s: State, t: TxId, newId: Id, now: int, g: Group, us: set<TxId>, early: set<Id>)
    requires AllIssued(s) && g.In(was) <= s.issued && Lasting(was, s, g, us, early)
    requires t in s.txns && s.txns[t].call.Create? && s.txns[t].pc.Placed?
    requires t in us ==>
               g.In(AdvanceCreate(s, t, s.txns[t].call, s.txns[t].pc, newId, now).db) - g.In(s.db) <= early
    ensures Lasting(was, AdvanceCreate(s, t, s.txns[t].call, s.txns[t].pc, newId, now), g, us, early)
  {
    var c, pc := s.txns[t].call, s.txns[t].pc;
    var r := InsertAt(s.db, c.kind, newId, pc.project, c.target, pc.order, now, c.settings);
    var s' := AdvanceCreate(s, t, c, pc, newId, now);
    if newId !in s.issued && r.Ok? {
      InsertJoins(s.db, c.kind, newId, pc.project, c.target, pc.order, now, c.settings, g);
      if Group(c.kind, pc.project, c.target) == g {
        assert t !in us ==> Joining(was, s.txns[t], g);
        JoinsSettled(was, s.db, r.value, g, newId, early);
      } else {
        ThinsSettled(was, s.db, r.value, g, early);
      }
      WriteLasts(was, s, s', t, g, us, early);
    } else {
      QuietLasts(was, s, s', t, g, us, early);
    }
  }

  lemma BulkOrderThins(db: Db, kind: Kind, project: Id, parent: Option<Id>, ids: seq<Id>, g: Group)
    requires Base(kind) + |ids| <= MAX_INT32 + 1 && Group(kind, project, parent) != g
    ensures Thins(db, db.WithRows(kind, BulkOrder(db.Rows(kind), kind, project, parent, ids)), g)
  {
  }

  lemma ReorderWrites(was: Db, s: State, t: TxId, g: Group, us: set<TxId>, early: set<Id>)
    requires Lasting(was, s, g, us, early) && t in s.txns && s.txns[t].call.Reorder? && s.txns[t].pc.Listed?
    requires GroupOf(s.txns[t]) != g
    ensures Lasting(was, AdvanceReorder(s, t, s.txns[t].call, s.txns[t].pc), g, us, early)
  {
    var c, project := s.txns[t].call, s.txns[t].pc.project;
    var s' := AdvanceReorder(s, t, c, s.txns[t].pc);
    if Base(c.kind) + |c.ids| <= MAX_INT32 + 1 {
      BulkOrderThins(s.db, c.kind, project, c.target, c.ids, g);
      ThinsSettled(was, s.db, s'.db, g, early);
      WriteLasts(was, s, s', t, g, us, early);
    } else {
      QuietLasts(was, s, s', t, g, us, early);
    }
  }

  lemma SetProxyThins(db: Db, kind: Kind, id: Id, patch: ProxyPatch, g: Group)
    requires SetProxy(db, kind, id, patch).Ok?
    ensures Thins(db, SetProxy(db, kind, id, patch).value, g)
  {
  }

  lemma PatchWrites(was: Db, s: State, t: TxId, g: Group, us: set<TxId>, early: set<Id>)
    requires Lasting(was, s, g, us, early) && t in s.txns && s.txns[t].call.Patch? && s.txns[t].pc.Checked?
    ensures Lasting(was, AdvancePatch(s, t, s.txns[t].call, s.txns[t].pc), g, us, early)
  {
    var c, s' := s.txns[t].call, AdvancePatch(s, t, s.txns[t].call, s.txns[t].pc);
    if SetProxy(s.db, c.kind, c.id, c.patch).Ok? {
      SetProxyThins(s.db, c.kind, c.id, c.patch, g);
      ThinsSettled(was, s.db, s'.db, g, early);
      WriteLasts(was, s, s', t, g, us, early);
    } else {
      QuietLasts(was, s, s', t, g, us, early);
    }
  }

  /** A step that neither reads a position nor writes. */
  predicate Prepares(x: Txn) {
    match x.call
    case Move(_, _, _, _) => !x.pc.Walked? && !x.pc.Placed?
    case Reorder(_, _, _, _) => !x.pc.Listed?
    case Create(_, _, _, _) => !x.pc.Checked? && !x.pc.Placed?
    case Patch(_, _, _) => !x.pc.Checked?
  }

  lemma PrepareIsQuiet(s: State, a: Action)
    requires a.Advance? && a.t in s.txns && Prepares(s.txns[a.t])
    ensures var s' := Step(s, a);
            && s'.db == s.db && s'.txns.Keys == s.txns.Keys
            && (forall u :: u in s.txns && u != a.t ==> s'.txns[u] == s.txns[u])
            && (s'.txns[a.t].pc.Placed? ==> s'.txns[a.t] == s.txns[a.t])
  {
  }

  lemma AdvanceLasts(was: Db, s: State, a: Action, g: Group, us: set<TxId>, early: set<Id>)
    requires Inv(s) && g.In(was) <= s.issued && Lasting(was, s, g, us, early)
    requires a.Advance? && a.t in s.txns && !Disturbs(s, a, g, g.In(was))
    requires a.t in us ==> g.In(Step(s, a).db) - g.In(s.db) <= early
    ensures Lasting(was, Step(s, a), g, us, early)
  {
    var x, t := s.txns[a.t], a.t;
    if Prepares(x) {
      PrepareIsQuiet(s, a);
      QuietLasts(was, s, Step(s, a), t, g, us, early);
    } else if x.call.Create? && x.pc.Checked? {
      CreateReads(was, s, t, a.newId, a.now, g, us, early);
    } else if x.call.Create? {
      CreateWrites(was, s, t, a.newId, a.now, g, us, early);
    } else if x.pc.Walked? {
      MoveReads(was, s, t, g, us, early);
    } else if Step(s, a).db == s.db {
      FinishUnchanged(was, s, a, g, us, early);
    } else if x.call.Move? {
      MoveWrites(was, s, t, g, us, early);
    } else if x.call.Reorder? {
      ReorderWrites(was, s, t, g, us, early);
    } else {
      PatchWrites(was, s, t, g, us, early);
    }
  }

  lemma FinishUnchanged(was: Db, s: State, a: Action, g: Group, us: set<TxId>, early: set<Id>)
    requires Lasting(was, s, g, us, early) && a.Advance? && a.t in s.txns && !Prepares(s.txns[a.t])
    requires !s.txns[a.t].call.Create? && !s.txns[a.t].pc.Walked? && Step(s, a).db == s.db
    ensures Lasting(was, Step(s, a), g, us, early)
  {
    QuietLasts(was, s, Step(s, a), a.t, g, us, early);
  }

  lemma DeletesThin(db: Db, g: Group, kind: Kind, id: Id)
    ensures Thins(db, DeleteNode(db, kind, id), g)
    ensures Thins(db, DeleteProxy(db, id), g)
    ensures Thins(db, DeleteProject(db, id), g)
  {
  }

  lemma OutsideThins(s: State, a: Action, g: Group)
    requires !a.Advance?
    ensures Thins(s.db, Step(s, a).db, g)
  {
    match a
    case Delete(kind, id) => DeletesThin(s.db, g, kind, id);
    case DropProxy(proxy) => DeletesThin(s.db, g, FolderKind, proxy);
    case DropProject(project) => DeletesThin(s.db, g, FolderKind, project);
    case Begin(_, _) =>
    case CreateProxy(_, _) =>
    case CreateProject(_) =>
  }

  lemma OutsideLasts(was: Db, s: State, a: Action, g: Group, us: set<TxId>, early: set<Id>)
    requires !a.Advance? && Lasting(was, s, g, us, early)
    ensures Lasting(was, Step(s, a), g, us, early)
  {
    OutsideThins(s, a, g);
    ThinsSettled(was, s.db, Step(s, a).db, g, early);
    ReadBehindKept(was, s, Step(s, a), if a.Begin? then a.t else 0, g, us);
  }

  lemma IssuedGrows(s: State, a: Action)
    ensures s.issued <= Step(s, a).issued
  {
  }

  lemma {:induction false} RunLasts(
    was: Db, s: State, actions: seq<Action>, g: Group, us: set<TxId>, early: set<Id>)
    requires Inv(s) && g.In(was) <= s.issued && Lasting(was, s, g, us, early)
    requires Undisturbed(s, actions, g, g.In(was))
    ensures Settled(was, Run(s, actions).db, g, early + JoinedBy(s, actions, g, us))
    decreases |actions|
  {
    if actions != [] {
      var a, rest := actions[0], actions[1..];
      var s' := Step(s, a);
      var joined := if a.Advance? && a.t in us then g.In(s'.db) - g.In(s.db) else {};
      SettledMore(was, s.db, g, early, early + joined);
      if a.Advance? {
        if a.t in s.txns {
          AdvanceLasts(was, s, a, g, us, early + joined);
        }
      } else {
        OutsideLasts(was, s, a, g, us, early + joined);
      }
      StepKeeps(s, a);
      IssuedGrows(s, a);
      RunLasts(was, s', rest, g, us, early + joined);
      assert early + joined + JoinedBy(s', rest, g, us) == early + JoinedBy(s, actions, g, us);
    }
  }

  // ------------------------------------------------------------- the theorem

  lemma SettledListing(was: Db, db: Db, g: Group, ids: seq<Id>, early: set<Id>, list: seq<Id>)
    requires Settled(was, db, g, early) && g.Lists(db, list)
    requires NoDuplicates(ids) && forall x :: x in ids ==>
               x in g.In(was) && was.Rows(g.kind)[x].sortOrder == Base(g.kind) + IndexOf(ids, x)
    ensures Restrict(list, ids) == Restrict(ids, list)
    ensures forall i, j :: 0 <= i < j < |list| && list[j] in g.In(was) ==> list[i] in g.In(was) || list[i] in early
  {
    PositionsAscend(db.Rows(g.kind), g.In(db), ids, Base(g.kind), list);
    SurvivorsInOrder(list, ids);
    forall i, j | 0 <= i < j < |list| && list[j] in g.In(was) ensures list[i] in g.In(was) || list[i] in early {
      assert list[i] in Elements(list) && list[j] in Elements(list);
      assert Before(db.Rows(g.kind)[list[i]], db.Rows(g.kind)[list[j]]);
    }
  }

  lemma CommitPlaces(s: State, t: TxId, newId: Id, now: int)
    requires Inv(s) && Committing(s, t)
    ensures var ids, g, s1 := s.txns[t].call.ids, GroupOf(s.txns[t]), Step(s, Advance(t, newId, now));
            && NoDuplicates(ids) && g.In(s1.db) == g.In(s.db) && g.In(s1.db) <= s1.issued
            && (forall x :: x in ids ==>
                  x in g.In(s1.db) && s1.db.Rows(g.kind)[x].sortOrder == Base(g.kind) + IndexOf(ids, x))
  {
    CommitWrites(s, t, newId, now);
    IssuedGrows(s, Advance(t, newId, now));
    forall x | x in s.txns[t].call.ids ensures x in GroupOf(s.txns[t]).In(s.db) {
      assert x in Elements(s.txns[t].call.ids);
    }
  }

  /**
   Whoever commits a reorder of a group with rows in it holds the lock, so no
   move in the project has a position in hand.
   */
  lemma NoMoveInFlight(s: State, t: TxId, u: TxId, i: Id)
    requires Inv(s) && Committing(s, t) && u in s.txns && u != t
    requires i in GroupOf(s.txns[t]).In(s.db) && s.txns[u].call.Move? && s.txns[u].pc.Placed?
    ensures s.txns[u].pc.project != s.txns[t].pc.project
  {
    assert TxnOk(s, t) && TxnOk(s, u);
    assert NodeOk(s.db, s.db.Rows(s.txns[t].call.kind)[i]);
  }

  lemma CommitStarts(s: State, t: TxId, newId: Id, now: int)
    requires Inv(s) && Committing(s, t)
    ensures var g, s1 := GroupOf(s.txns[t]), Step(s, Advance(t, newId, now));
            Lasting(s1.db, s1, g, Late(s1, g), {})
  {
    var g, s1 := GroupOf(s.txns[t]), Step(s, Advance(t, newId, now));
    CommitPlaces(s, t, newId, now);
    forall u, i | u in s1.txns && s1.txns[u].call.Move? && Joining(s1.db, s1.txns[u], g) && i in g.In(s1.db)
      ensures false
    {
      NoMoveInFlight(s, t, u, i);
    }
  }

  lemma CommitLasts(s: State, t: TxId, newId: Id, now: int, later: seq<Action>)
    requires Inv(s) && Committing(s, t)
    requires var g, s1 := GroupOf(s.txns[t]), Step(s, Advance(t, newId, now));
             Undisturbed(s1, later, g, g.In(s1.db))
    ensures var g, s1 := GroupOf(s.txns[t]), Step(s, Advance(t, newId, now));
            Settled(s1.db, Run(s1, later).db, g, JoinedBy(s1, later, g, Late(s1, g)))
  {
    var g, s1 := GroupOf(s.txns[t]), Step(s, Advance(t, newId, now));
    CommitPlaces(s, t, newId, now);
    CommitStarts(s, t, newId, now);
    StepKeeps(s, Advance(t, newId, now));
    RunLasts(s1.db, s1, later, g, Late(s1, g), {});
    assert {} + JoinedBy(s1, later, g, Late(s1, g)) == JoinedBy(s1, later, g, Late(s1, g));
  }

  /**
   How long the order lasts: after the commit, over any further traffic that
   never reorders the group, moves a row into it at an explicit position or
   appends one of its rows again, every listing shows the submitted rows that
   are left in the submitted order. Whatever joined the group after the commit
   comes after everything that was in it, except for rows of creates that had
   read their position in the group before the commit, and at the commit some
   row of the group was not before that position.
   */
  lemma CommittedOrderLasts(actions: seq<Action>, t: TxId, newId: Id, now: int, later: seq<Action>, list: seq<Id>)
    requires Committing(Run(INITIAL, actions), t)
    requires var s := Run(INITIAL, actions);
             var g, s1 := GroupOf(s.txns[t]), Step(s, Advance(t, newId, now));
             Undisturbed(s1, later, g, g.In(s1.db)) && g.Lists(Run(s1, later).db, list)
    ensures var s := Run(INITIAL, actions);
            var ids, g, s1 := s.txns[t].call.ids, GroupOf(s.txns[t]), Step(s, Advance(t, newId, now));
            var group, early := g.In(s1.db), JoinedBy(s1, later, g, Late(s1, g));
            && Restrict(list, ids) == Restrict(ids, list)
            && (forall i, j :: 0 <= i < j < |list| && list[j] in group ==> list[i] in group || list[i] in early)
  {
    RunKeeps(INITIAL, actions);
    var s := Run(INITIAL, actions);
    var g, s1 := GroupOf(s.txns[t]), Step(s, Advance(t, newId, now));
    CommitPlaces(s, t, newId, now);
    CommitLasts(s, t, newId, now, later);
    SettledListing(s1.db, Run(s1, later).db, g, s.txns[t].call.ids, JoinedBy(s1, later, g, Late(s1, g)), list);
  }

  // ------------------------------------------------ where the excepted land

  lemma ThinsHolds(was: Db, db: Db, db': Db, g: Group)
    requires Holds(was, db, g) && (Thins(db, db', g) || exists id :: id !in g.In(was) && Joins(db, db', g, id))
    ensures Holds(was, db', g)
  {
  }

  lemma MoveHolds(was: Db, s: State, t: TxId, g: Group)
    requires Inv(s) && Holds(was, s.db, g) && t in s.txns && s.txns[t].call.Move? && s.txns[t].pc.Placed?
    requires Group(s.txns[t].call.kind, s.txns[t].pc.project, s.txns[t].call.target) == g ==>
               s.txns[t].call.id !in g.In(was)
    ensures Holds(was, AdvanceMove(s, t, s.txns[t].call, s.txns[t].pc).db, g)
  {
    var c, pc := s.txns[t].call, s.txns[t].pc;
    var r := Reparent(s.db, c.kind, c.id, c.target, Some(pc.order));
    assert TxnOk(s, t);
    if r.Ok? {
      ReparentJoins(s.db, c.kind, c.id, c.target, pc.order, g);
      ThinsHolds(was, s.db, r.value, g);
    }
  }

  lemma CreateHolds(was: Db, s: State, t: TxId, newId: Id, now: int, g: Group)
    requires AllIssued(s) && g.In(was) <= s.issued && Holds(was, s.db, g)
    requires t in s.txns && s.txns[t].call.Create? && s.txns[t].pc.Placed?
    ensures Holds(was, AdvanceCreate(s, t, s.txns[t].call, s.txns[t].pc, newId, now).db, g)
  {
    var c, pc := s.txns[t].call, s.txns[t].pc;
    var r := InsertAt(s.db, c.kind, newId, pc.project, c.target, pc.order, now, c.settings);
    if newId !in s.issued && r.Ok? {
      InsertJoins(s.db, c.kind, newId, pc.project, c.target, pc.order, now, c.settings, g);
      ThinsHolds(was, s.db, r.value, g);
    }
  }

  lemma StepHolds(was: Db, s: State, a: Action, g: Group)
    requires Inv(s) && g.In(was) <= s.issued && Holds(was, s.db, g) && !Disturbs(s, a, g, g.In(was))
    ensures Holds(was, Step(s, a).db, g)
  {
    if !a.Advance? {
      OutsideThins(s, a, g);
      ThinsHolds(was, s.db, Step(s, a).db, g);
    } else if Step(s, a).db != s.db {
      var c, pc := s.txns[a.t].call, s.txns[a.t].pc;
      match c
      case Move(_, _, _, _) => MoveHolds(was, s, a.t, g);
      case Create(_, _, _, _) => CreateHolds(was, s, a.t, a.newId, a.now, g);
      case Reorder(_, _, _, _) =>
        BulkOrderThins(s.db, c.kind, pc.project, c.target, c.ids, g);
        ThinsHolds(was, s.db, Step(s, a).db, g);
      case Patch(_, _, _) =>
        SetProxyThins(s.db, c.kind, c.id, c.patch, g);
        ThinsHolds(was, s.db, Step(s, a).db, g);
    }
  }

  lemma {:induction false} RunHolds(was: Db, s: State, actions: seq<Action>, g: Group)
    requires Inv(s) && g.In(was) <= s.issued && Holds(was, s.db, g) && Undisturbed(s, actions, g, g.In(was))
    ensures Holds(was, Run(s, actions).db, g)
    decreases |actions|
  {
    if actions != [] {
      StepKeeps(s, actions[0]);
      IssuedGrows(s, actions[0]);
      StepHolds(was, s, actions[0], g);
      RunHolds(was, Step(s, actions[0]), actions[1..], g);
    }
  }

  /** Between its read and its write a transaction does nothing else. */
  ghost predicate PlacedOrDone(s: State, u: TxId, x: Txn) {
    u in s.txns && s.txns[u].call == x.call && (s.txns[u] == x || s.txns[u].pc.Finished?)
  }

  lemma StepPlaced(s: State, a: Action, u: TxId, x: Txn)
    requires PlacedOrDone(s, u, x) && x.pc.Placed?
    ensures PlacedOrDone(Step(s, a), u, x)
  {
  }

  lemma {:induction false} RunPlaced(s: State, actions: seq<Action>, u: TxId, x: Txn)
    requires PlacedOrDone(s, u, x) && x.pc.Placed?
    ensures PlacedOrDone(Run(s, actions), u, x)
    decreases |actions|
  {
    if actions != [] {
      StepPlaced(s, actions[0], u, x);
      RunPlaced(Step(s, actions[0]), actions[1..], u, x);
    }
  }

  /** The step with which create u puts row `id` into the group. */
  ghost predicate Writes(s: State, u: TxId, id: Id, at: int, g: Group) {
    id in g.In(Step(s, Advance(u, id, at)).db) && id !in g.In(s.db)
  }

  lemma WriteFacts(s: State, u: TxId, id: Id, at: int, g: Group, i: Id)
    requires AllIssued(s) && u in s.txns && s.txns[u].call.Create? && Writes(s, u, id, at, g)
    ensures var rows' := Step(s, Advance(u, id, at)).db.Rows(g.kind);
            && s.txns[u].pc.Placed? && rows'[id].sortOrder == s.txns[u].pc.order && rows'[id].createdAt == at
            && (i in g.In(s.db) ==> i in rows' && rows'[i] == s.db.Rows(g.kind)[i])
  {
  }

  lemma PrecedesIn(t: Table, group: set<Id>, list: seq<Id>, k: nat, l: nat)
    requires OrderBy(t, group, list) && k < |list| && l < |list|
    requires list[k] in t && list[l] in t && !Before(t[list[l]], t[list[k]]) && k != l
    ensures k < l
  {
  }

  /**
   From s, undisturbed: `before`, then create u, late in s, puts row `id` into
   the group, then `after`; row i, which was not before the position u had
   read, is there all along.
   */
  ghost predicate LateRun(
    s: State, g: Group, i: Id, before: seq<Action>, u: TxId, id: Id, at: int, after: seq<Action>)
  {
    var s1 := Run(s, before);
    var s2 := Step(s1, Advance(u, id, at));
    && u in Late(s, g) && i in g.In(s.db) && s.db.Rows(g.kind)[i].sortOrder >= s.txns[u].pc.order
    && Undisturbed(s, before, g, g.In(s.db))
    && i in g.In(s1.db) && Writes(s1, u, id, at, g)
    && Undisturbed(s2, after, g, g.In(s2.db))
    && i in g.In(Run(s2, after).db) && id in g.In(Run(s2, after).db)
  }

  lemma LateRowWritten(s: State, g: Group, i: Id, before: seq<Action>, u: TxId, id: Id, at: int)
    requires Inv(s) && u in Late(s, g) && i in g.In(s.db) && Undisturbed(s, before, g, g.In(s.db))
    requires i in g.In(Run(s, before).db) && Writes(Run(s, before), u, id, at, g)
    ensures var was, s2 := s.db.Rows(g.kind), Step(Run(s, before), Advance(u, id, at));
            var rows := s2.db.Rows(g.kind);
            && Inv(s2) && i in g.In(s2.db) && id in g.In(s2.db)
            && rows[id].sortOrder == s.txns[u].pc.order && rows[id].createdAt == at
            && rows[i].sortOrder == was[i].sortOrder && rows[i].createdAt == was[i].createdAt
  {
    var s1 := Run(s, before);
    RunKeeps(s, before);
    StepKeeps(s1, Advance(u, id, at));
    RunHolds(s.db, s, before, g);
    RunPlaced(s, before, u, s.txns[u]);
    WriteFacts(s1, u, id, at, g, i);
  }

  lemma LateRowStays(s: State, g: Group, i: Id, before: seq<Action>, u: TxId, id: Id, at: int, after: seq<Action>)
    requires Inv(s) && LateRun(s, g, i, before, u, id, at, after)
    ensures var was := s.db.Rows(g.kind);
            var rows := Run(Step(Run(s, before), Advance(u, id, at)), after).db.Rows(g.kind);
            && rows[id].sortOrder == s.txns[u].pc.order && rows[id].createdAt == at
            && rows[i].sortOrder == was[i].sortOrder && rows[i].createdAt == was[i].createdAt
  {
    var s2 := Step(Run(s, before), Advance(u, id, at));
    LateRowWritten(s, g, i, before, u, id, at);
    RunHolds(s2.db, s2, after, g);
  }

  /**
   The exception is exact: the row of a late create, once written and while
   nothing disturbs the group, stands before the row it was not behind; when
   the two positions are equal, created_at decides.
   */
  lemma LateRowsLandBefore(
    actions: seq<Action>, g: Group, i: Id, before: seq<Action>, u: TxId, id: Id, at: int, after: seq<Action>,
    list: seq<Id>, k: nat, l: nat)
    requires LateRun(Run(INITIAL, actions), g, i, before, u, id, at, after)
    requires g.Lists(Run(Step(Run(Run(INITIAL, actions), before), Advance(u, id, at)), after).db, list)
    requires k < |list| && l < |list| && list[k] == id && list[l] == i
    ensures var s := Run(INITIAL, actions);
            var row := s.db.Rows(g.kind)[i];
            if row.sortOrder > s.txns[u].pc.order || row.createdAt > at then k < l
            else row.createdAt < at ==> l < k
  {
    var s := Run(INITIAL, actions);
    var db := Run(Step(Run(s, before), Advance(u, id, at)), after).db;
    RunKeeps(INITIAL, actions);
    LateRowStays(s, g, i, before, u, id, at, after);
    if !Before(db.Rows(g.kind)[i], db.Rows(g.kind)[id]) {
      PrecedesIn(db.Rows(g.kind), g.In(db), list, k, l);
    } else if !Before(db.Rows(g.kind)[id], db.Rows(g.kind)[i]) {
      PrecedesIn(db.Rows(g.kind), g.In(db), list, l, k);
    }
  }

  // ------------------------------- a create between the check and the commit

  lemma {:induction false} RunAppend(s: State, a: seq<Action>, b: seq<Action>)
    ensures Run(s, a + b) == Run(Run(s, a), b)
    decreases |a|
  {
    if a == [] {
      assert a + b == b;
    } else {
      assert (a + b)[1..] == a[1..] + b;
      RunAppend(Step(s, a[0]), a[1..], b);
    }
  }

  /** A transaction that starts and takes n steps in a row. */
  function Starting(t: TxId, call: Call, n: nat, newId: Id, now: int): seq<Action> {
    [Begin(t, call)] + Turns(t, n, newId, now)
  }

  lemma RunStarting(s: State, t: TxId, call: Call, n: nat, newId: Id, now: int)
    ensures Run(s, Starting(t, call, n, newId, now)) == Run(Step(s, Begin(t, call)), Turns(t, n, newId, now))
  {
    assert Starting(t, call, n, newId, now)[1..] == Turns(t, n, newId, now);
  }

  function RootFolder(project: Id, order: Int32, createdAt: int): Node {
    Node(project, None, order, createdAt, Inherit, None, "")
  }

  /** The state with a further transaction standing at pc. */
  function With(s: State, t: TxId, call: Call, pc: Pc): State {
    s.(txns := s.txns[t := Txn(call, pc)])
  }

  lemma WithGoes(s: State, t: TxId, call: Call, pc: Pc, pc': Pc)
    ensures Goto(With(s, t, call, pc), t, pc') == With(s, t, call, pc')
  {
    assert s.txns[t := Txn(call, pc)][t := Txn(call, pc')] == s.txns[t := Txn(call, pc')];
  }

  lemma WithCommits(s: State, t: TxId, call: Call, db: Db)
    ensures Finish(With(s, t, call, Started), t, Ok(db)) ==
            With(s, t, call, Finished(None)).(db := db, locks := Release(s.locks, t))
  {
    WithGoes(s, t, call, Started, Finished(None));
  }

  lemma CreateRuns(s: State, t: TxId, project: Id, id: Id, now: int, order: Int32)
    requires t !in s.txns && project in s.db.projects && id !in s.issued
    requires NextOrder(s.db.folders, Siblings(s.db.folders, project, None), Ok(order))
    ensures var call := Create(FolderKind, project, None, "");
            Run(s, Starting(t, call, 4, id, now)) ==
            With(s, t, call, Finished(None)).(
              db := s.db.(folders := s.db.folders[id := RootFolder(project, order, now)]),
              issued := s.issued + {id},
              locks := Release(s.locks, t))
  {
    var call := Create(FolderKind, project, None, "");
    var group := Siblings(s.db.folders, project, None);
    RunStarting(s, t, call, 4, id, now);
    CreateAloneMatches(With(s, t, call, Started), t, id, now);
    NextOrderUnique(s.db.folders, group, Ok(order), NextOrderOf(s.db.folders, group));
    WithCommits(s, t, call, s.db.(folders := s.db.folders[id := RootFolder(project, order, now)]));
  }

  lemma MoveRuns(s: State, t: TxId, project: Id, id: Id, order: Int32)
    requires t !in s.txns && DbOk(s.db) && id in s.db.folders &&
             s.db.folders[id].project == project && project !in s.locks
    ensures var call := Move(FolderKind, id, None, Some(order));
            Run(s, Starting(t, call, 6, 0, 0)) ==
            With(s, t, call, Finished(None)).(
              db := s.db.(folders := s.db.folders[id := s.db.folders[id].(parent := None, sortOrder := order)]),
              locks := Release(s.locks, t))
  {
    var call := Move(FolderKind, id, None, Some(order));
    RunStarting(s, t, call, 6, 0, 0);
    MoveAloneMatches(With(s, t, call, Started), t, 0, 0);
    WithCommits(s, t, call,
                s.db.(folders := s.db.folders[id := s.db.folders[id].(parent := None, sortOrder := order)]));
  }

  lemma ReorderLocks(s: State, t: TxId, call: Call)
    requires call.Reorder? && call.project in s.db.projects && call.project !in s.locks
    ensures Run(With(s, t, call, Started), Turns(t, 4, 0, 0)) ==
            Run(With(s, t, call, Locked(call.project)).(locks := s.locks[call.project := t]), Turns(t, 2, 0, 0))
  {
    TakeTurn(With(s, t, call, Started), t, 4, 0, 0);
    WithGoes(s, t, call, Started, Seen(call.project));
    TakeTurn(With(s, t, call, Seen(call.project)), t, 3, 0, 0);
    WithGoes(s, t, call, Seen(call.project), Locked(call.project));
  }

  lemma ReorderChecked(s: State, t: TxId, call: Call)
    requires call.Reorder? && TargetInProject(s.db, call.target, call.project)
    requires NoDuplicates(call.ids) && Elements(call.ids) == Siblings(s.db.Rows(call.kind), call.project, call.target)
    ensures Run(With(s, t, call, Locked(call.project)), Turns(t, 2, 0, 0)) == With(s, t, call, Listed(call.project))
  {
    TakeTurn(With(s, t, call, Locked(call.project)), t, 2, 0, 0);
    WithGoes(s, t, call, Locked(call.project), Checked(call.project));
    TakeTurn(With(s, t, call, Checked(call.project)), t, 1, 0, 0);
    WithGoes(s, t, call, Checked(call.project), Listed(call.project));
  }

  lemma ReorderChecks(s: State, t: TxId, project: Id, ids: seq<Id>)
    requires t !in s.txns && project in s.db.projects && project !in s.locks
    requires NoDuplicates(ids) && Elements(ids) == Siblings(s.db.folders, project, None)
    ensures var call := Reorder(FolderKind, project, None, ids);
            Run(s, Starting(t, call, 4, 0, 0)) == With(s, t, call, Listed(project)).(locks := s.locks[project := t])
  {
    var call := Reorder(FolderKind, project, None, ids);
    RunStarting(s, t, call, 4, 0, 0);
    ReorderLocks(s, t, call);
    ReorderChecked(s.(locks := s.locks[project := t]), t, call);
  }

  /** Project 10 with these folders, nobody holding a lock. */
  ghost predicate Quiet(s: State, folders: Table, txns: set<TxId>) {
    s.db == Db({10}, folders, map[], map[]) && s.issued == {10} + folders.Keys &&
    s.locks == map[] && s.txns.Keys == txns
  }

  lemma FirstFolder(s: State)
    requires Quiet(s, map[], {})
    ensures Quiet(Run(s, Starting(0, Create(FolderKind, 10, None, ""), 4, 1, 1)), map[1 := RootFolder(10, 0, 1)], {0})
  {
    assert Siblings(s.db.folders, 10, None) == {};
    CreateRuns(s, 0, 10, 1, 1, 0);
  }

  lemma SecondFolder(s: State)
    requires Quiet(s, map[1 := RootFolder(10, 0, 1)], {0})
    ensures Quiet(Run(s, Starting(1, Create(FolderKind, 10, None, ""), 4, 2, 2)),
                  map[1 := RootFolder(10, 0, 1), 2 := RootFolder(10, 1, 2)], {0, 1})
  {
    assert Siblings(s.db.folders, 10, None) == {1};
    assert IsMaxOrder(s.db.folders, {1}, 0);
    CreateRuns(s, 1, 10, 2, 2, 1);
  }

  lemma RootFoldersOk(db: Db)
    requires db.requests == map[] && db.proxies == map[]
    requires forall i :: i in db.folders ==>
               db.folders[i].project in db.projects && db.folders[i].parent.None? && db.folders[i].proxyId.None?
    ensures DbOk(db)
  {
  }

  lemma SecondFolderMoved(s: State)
    requires Quiet(s, map[1 := RootFolder(10, 0, 1), 2 := RootFolder(10, 1, 2)], {0, 1})
    ensures Quiet(Run(s, Starting(2, Move(FolderKind, 2, None, Some(0)), 6, 0, 0)),
                  map[1 := RootFolder(10, 0, 1), 2 := RootFolder(10, 0, 2)], {0, 1, 2})
  {
    RootFoldersOk(s.db);
    MoveRuns(s, 2, 10, 2, 0);
    assert s.db.folders[2 := RootFolder(10, 0, 2)] == map[1 := RootFolder(10, 0, 1), 2 := RootFolder(10, 0, 2)];
  }

  /** Checked and not yet written: the reorder to [2, 1], with folder 3 created since. */
  ghost predicate Overtaken(s: State) {
    && s.db.folders == map[1 := RootFolder(10, 0, 1), 2 := RootFolder(10, 0, 2), 3 := RootFolder(10, 1, 3)]
    && 3 in s.txns && s.txns[3] == Txn(Reorder(FolderKind, 10, None, [2, 1]), Listed(10))
  }

  lemma ThirdFolder(s: State)
    requires Quiet(s, map[1 := RootFolder(10, 0, 1), 2 := RootFolder(10, 0, 2)], {0, 1, 2})
    ensures var s1 := Run(s, Starting(3, Reorder(FolderKind, 10, None, [2, 1]), 4, 0, 0));
            Overtaken(Run(s1, Starting(4, Create(FolderKind, 10, None, ""), 4, 3, 3)))
  {
    assert Siblings(s.db.folders, 10, None) == {1, 2};
    ReorderChecks(s, 3, 10, [2, 1]);
    assert IsMaxOrder(s.db.folders, {1, 2}, 0);
    CreateRuns(Run(s, Starting(3, Reorder(FolderKind, 10, None, [2, 1]), 4, 0, 0)), 4, 10, 3, 3, 1);
  }

  lemma SplitListing(t: Table, list: seq<Id>)
    requires t.Keys == {1, 2, 3} && t[1].sortOrder == 2 && t[2].sortOrder == t[3].sortOrder == 1
    requires t[2].createdAt < t[3].createdAt
    ensures OrderBy(t, {1, 2, 3}, list) <==> list == [2, 3, 1]
  {
    assert Elements([2, 3, 1]) == {1, 2, 3};
    if OrderBy(t, {1, 2, 3}, list) {
      DistinctSize(list);
      assert forall i :: 0 <= i < |list| ==> list[i] in Elements(list);
      assert !Before(t[1], t[2]) && !Before(t[1], t[3]) && !Before(t[3], t[2]);
      assert |list| == 3;
    }
  }

  lemma OvertakenWrite(t: Table, ids: seq<Id>, list: seq<Id>)
    requires t == map[1 := RootFolder(10, 0, 1), 2 := RootFolder(10, 0, 2), 3 := RootFolder(10, 1, 3)] && ids == [2, 1]
    ensures var t' := BulkOrder(t, FolderKind, 10, None, ids);
            OrderBy(t', Siblings(t', 10, None), list) <==> list == [2, 3, 1]
  {
    var t' := BulkOrder(t, FolderKind, 10, None, ids);
    IndexOfDistinct(ids, 0);
    IndexOfDistinct(ids, 1);
    assert Siblings(t', 10, None) == {1, 2, 3};
    SplitListing(t', list);
  }

  lemma OvertakenCommit(s: State, list: seq<Id>)
    requires Inv(s) && Overtaken(s)
    ensures GroupOf(s.txns[3]).Lists(Step(s, Advance(3, 0, 0)).db, list) <==> list == [2, 3, 1]
  {
    CommitWrites(s, 3, 0, 0);
    OvertakenWrite(s.db.folders, [2, 1], list);
  }

  /**
   Folder 2 is moved next to folder 1, to position 0; a reorder to [2, 1]
   checks its list; before it writes, the create of folder 3 takes n steps:
   four of them are all, three end with the position read.
   */
  function CreatedMeanwhile(n: nat): seq<Action> {
    [CreateProject(10)] +
    Starting(0, Create(FolderKind, 10, None, ""), 4, 1, 1) +
    Starting(1, Create(FolderKind, 10, None, ""), 4, 2, 2) +
    Starting(2, Move(FolderKind, 2, None, Some(0)), 6, 0, 0) +
    Starting(3, Reorder(FolderKind, 10, None, [2, 1]), 4, 0, 0) +
    Starting(4, Create(FolderKind, 10, None, ""), n, 3, 3)
  }

  lemma RunParts(
    s: State, a: seq<Action>, b: seq<Action>, c: seq<Action>,
    d: seq<Action>, e: seq<Action>, f: seq<Action>)
    ensures Run(s, a + b + c + d + e + f) == Run(Run(Run(Run(Run(Run(s, a), b), c), d), e), f)
  {
    RunAppend(s, a, b);
    RunAppend(s, a + b, c);
    RunAppend(s, a + b + c, d);
    RunAppend(s, a + b + c + d, e);
    RunAppend(s, a + b + c + d + e, f);
  }

  lemma FirstProject(s: State)
    requires s == INITIAL
    ensures Quiet(Run(s, [CreateProject(10)]), map[], {})
  {
    assert [CreateProject(10)][1..] == [];
  }

  /** Project 10 with folders 1 and 2 at position 0. */
  ghost predicate TwoFolders(s: State) {
    Quiet(s, map[1 := RootFolder(10, 0, 1), 2 := RootFolder(10, 0, 2)], {0, 1, 2})
  }

  lemma TwoFoldersReached(s: State, n: nat)
    requires s == INITIAL
    ensures exists s0 :: TwoFolders(s0) &&
              Run(s, CreatedMeanwhile(n)) ==
              Run(Run(s0, Starting(3, Reorder(FolderKind, 10, None, [2, 1]), 4, 0, 0)),
                  Starting(4, Create(FolderKind, 10, None, ""), n, 3, 3))
  {
    var create := Create(FolderKind, 10, None, "");
    var a, b, c := [CreateProject(10)], Starting(0, create, 4, 1, 1), Starting(1, create, 4, 2, 2);
    var d := Starting(2, Move(FolderKind, 2, None, Some(0)), 6, 0, 0);
    var e := Starting(3, Reorder(FolderKind, 10, None, [2, 1]), 4, 0, 0);
    RunParts(s, a, b, c, d, e, Starting(4, create, n, 3, 3));
    FirstProject(s);
    FirstFolder(Run(s, a));
    SecondFolder(Run(Run(s, a), b));
    SecondFolderMoved(Run(Run(Run(s, a), b), c));
    assert TwoFolders(Run(Run(Run(Run(s, a), b), c), d));
  }

  lemma OvertakenReached(s: State)
    requires s == INITIAL
    ensures Overtaken(Run(s, CreatedMeanwhile(4)))
  {
    TwoFoldersReached(s, 4);
    var s0 :| TwoFolders(s0) && Run(s, CreatedMeanwhile(4)) ==
              Run(Run(s0, Starting(3, Reorder(FolderKind, 10, None, [2, 1]), 4, 0, 0)),
                  Starting(4, Create(FolderKind, 10, None, ""), 4, 3, 3));
    ThirdFolder(s0);
  }

  /**
   The reorder [2, 1] commits although folder 3 arrived after its check: the
   group then lists as [2, 3, 1], not as submitted and not with 3 last.
   */
  lemma CreatedMeanwhileSplitsTheList(list: seq<Id>)
    ensures var s := Run(INITIAL, CreatedMeanwhile(4));
            && Committing(s, 3) && s.txns[3].call.ids == [2, 1]
            && (GroupOf(s.txns[3]).Lists(Step(s, Advance(3, 0, 0)).db, list) <==> list == [2, 3, 1])
  {
    OvertakenReached(INITIAL);
    RunKeeps(INITIAL, CreatedMeanwhile(4));
    OvertakenCommit(Run(INITIAL, CreatedMeanwhile(4)), list);
  }

  // -------------------------------- a position read before, written after it

  /** Both about to write: the reorder to [2, 1], and the create of folder 3 at position 1. */
  ghost predicate Racing(s: State) {
    && s.db == Db({10}, map[1 := RootFolder(10, 0, 1), 2 := RootFolder(10, 0, 2)], map[], map[])
    && 3 !in s.issued && 3 in s.txns && 4 in s.txns
    && s.txns[3] == Txn(Reorder(FolderKind, 10, None, [2, 1]), Listed(10))
    && s.txns[4] == Txn(Create(FolderKind, 10, None, ""), Placed(10, 1))
  }

  lemma CreateReadsOnly(s: State, t: TxId, project: Id, id: Id, now: int, order: Int32)
    requires t !in s.txns && project in s.db.projects
    requires NextOrder(s.db.folders, Siblings(s.db.folders, project, None), Ok(order))
    ensures var call := Create(FolderKind, project, None, "");
            Run(s, Starting(t, call, 3, id, now)) == With(s, t, call, Placed(project, order))
  {
    var call := Create(FolderKind, project, None, "");
    var group := Siblings(s.db.folders, project, None);
    RunStarting(s, t, call, 3, id, now);
    TakeTurn(With(s, t, call, Started), t, 3, id, now);
    WithGoes(s, t, call, Started, Seen(project));
    TakeTurn(With(s, t, call, Seen(project)), t, 2, id, now);
    WithGoes(s, t, call, Seen(project), Checked(project));
    TakeTurn(With(s, t, call, Checked(project)), t, 1, id, now);
    NextOrderUnique(s.db.folders, group, Ok(order), NextOrderOf(s.db.folders, group));
    WithGoes(s, t, call, Checked(project), Placed(project, order));
  }

  lemma RaceReached(s: State)
    requires TwoFolders(s)
    ensures var s1 := Run(s, Starting(3, Reorder(FolderKind, 10, None, [2, 1]), 4, 0, 0));
            Racing(Run(s1, Starting(4, Create(FolderKind, 10, None, ""), 3, 3, 3)))
  {
    assert Siblings(s.db.folders, 10, None) == {1, 2};
    ReorderChecks(s, 3, 10, [2, 1]);
    assert IsMaxOrder(s.db.folders, {1, 2}, 0);
    CreateReadsOnly(Run(s, Starting(3, Reorder(FolderKind, 10, None, [2, 1]), 4, 0, 0)), 4, 10, 3, 3, 1);
  }

  lemma RaceWrites(t: Table, ids: seq<Id>, list: seq<Id>)
    requires t == map[1 := RootFolder(10, 0, 1), 2 := RootFolder(10, 0, 2)] && ids == [2, 1]
    ensures var t' := BulkOrder(t, FolderKind, 10, None, ids)[3 := RootFolder(10, 1, 3)];
            OrderBy(t', Siblings(t', 10, None), list) <==> list == [2, 3, 1]
  {
    var t' := BulkOrder(t, FolderKind, 10, None, ids)[3 := RootFolder(10, 1, 3)];
    IndexOfDistinct(ids, 0);
    IndexOfDistinct(ids, 1);
    assert Siblings(t', 10, None) == {1, 2, 3};
    SplitListing(t', list);
  }

  lemma RaceCommits(s: State)
    requires Inv(s) && Racing(s)
    ensures var g, s1 := GroupOf(s.txns[3]), Step(s, Advance(3, 0, 0));
            && g.Lists(s1.db, [2, 1])
            && s1.db == s.db.(folders := BulkOrder(s.db.folders, FolderKind, 10, None, [2, 1]))
            && s1.issued == s.issued && 4 in s1.txns && s1.txns[4] == s.txns[4]
  {
    var g := GroupOf(s.txns[3]);
    assert g.In(s.db) == {1, 2} == Elements([2, 1]);
    CommitWrites(s, 3, 0, 0);
    CommitFacts(s, 3, 0, 0, [2, 1]);
  }

  lemma RaceInserts(s: State)
    requires 4 in s.txns && s.txns[4] == Txn(Create(FolderKind, 10, None, ""), Placed(10, 1))
    requires 3 !in s.issued && 10 in s.db.projects
    ensures Step(s, Advance(4, 3, 3)).db == s.db.(folders := s.db.folders[3 := RootFolder(10, 1, 3)])
  {
  }

  lemma RaceEnds(s: State, list: seq<Id>)
    requires Inv(s) && Racing(s)
    ensures var g, s1 := GroupOf(s.txns[3]), Step(s, Advance(3, 0, 0));
            && Committing(s, 3) && g.Lists(s1.db, [2, 1])
            && (g.Lists(Step(s1, Advance(4, 3, 3)).db, list) <==> list == [2, 3, 1])
  {
    RaceCommits(s);
    RaceInserts(Step(s, Advance(3, 0, 0)));
    RaceWrites(s.db.folders, [2, 1], list);
  }

  lemma RacingReached(s: State)
    requires s == INITIAL
    ensures Racing(Run(s, CreatedMeanwhile(3)))
  {
    TwoFoldersReached(s, 3);
    var s0 :| TwoFolders(s0) && Run(s, CreatedMeanwhile(3)) ==
              Run(Run(s0, Starting(3, Reorder(FolderKind, 10, None, [2, 1]), 4, 0, 0)),
                  Starting(4, Create(FolderKind, 10, None, ""), 3, 3, 3));
    RaceReached(s0);
  }

  /**
   Why creates in flight are excepted: here the reorder commits with the whole
   group named, so it lists as [2, 1]; but a create had read position 1 before,
   and its row lands in the middle when it is written afterwards.
   */
  lemma ReadBeforeCommitSplitsTheList(list: seq<Id>)
    ensures var s := Run(INITIAL, CreatedMeanwhile(3));
            var s1 := Step(s, Advance(3, 0, 0));
            && Committing(s, 3) && s.txns[3].call.ids == [2, 1]
            && GroupOf(s.txns[3]).Lists(s1.db, [2, 1])
            && (GroupOf(s.txns[3]).Lists(Step(s1, Advance(4, 3, 3)).db, list) <==> list == [2, 3, 1])
  {
    RacingReached(INITIAL);
    RunKeeps(INITIAL, CreatedMeanwhile(3));
    RaceEnds(Run(INITIAL, CreatedMeanwhile(3)), list);
  }
}
